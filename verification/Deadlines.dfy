/**
 The reference for the kernel's timeout queue (kernel/timeout.c): a clock and a plain list of
 absolute deadlines.  Every armed entry is stamped with its arming number, so that the order of
 expiry, ties included, can be stated over a whole run.
 */
module Deadlines {
  import opened Lists

  const K_TICKS_FOREVER := -1
  const K_NO_WAIT := 0

  /** Z_TICK_ABS: absolute times live in the negative space below K_TICKS_FOREVER. */
  function TickAbs(t: int): int { K_TICKS_FOREVER - 1 - t }

  /** Which timeout object expires, and at which tick. */
  datatype Due = Due(id: nat, at: int)

  /** One arming of a timeout object. */
  datatype Inst = Inst(due: Due, stamp: nat)

  /** What an expiry handler, or any caller, may do to the queue; `hw` is what sys_clock_elapsed() reports. */
  datatype Op = Arm(id: nat, timeout: int, hw: nat) | Cancel(id: nat)

  /** The operations performed by the k-th handler call, which is on behalf of entry `id`. */
  type Handlers = (nat, nat) -> seq<Op>

  /** The clock, what is pending, and the history: everything armed so far, in order, and what became of it. */
  datatype Clock = Clock(now: int, pend: seq<Inst>, armed: seq<Inst>, fired: seq<Inst>, cancelled: seq<Inst>)

  const BOOT := Clock(0, [], [], [], [])

  // ----- Lists of deadlines -----

  function Erase(s: seq<Inst>): seq<Due> { seq(|s|, i requires 0 <= i < |s| => s[i].due) }

  lemma EraseTail(s: seq<Inst>)
    requires s != []
    ensures Erase(s[1..]) == RemoveAt(Erase(s), 0)
  {
  }

  predicate Linked(s: seq<Due>, id: nat) { exists i :: 0 <= i < |s| && s[i].id == id }

  ghost predicate Distinct(s: seq<Due>) { forall i, j :: 0 <= i < j < |s| ==> s[i].id != s[j].id }

  ghost predicate Ascending(s: seq<Due>) { forall i, j :: 0 <= i < j < |s| ==> s[i].at <= s[j].at }

  /** The place of a new deadline: behind everything due no later. */
  function Pos(s: seq<Due>, at: int): (p: nat)
    ensures p <= |s|
    ensures forall i :: 0 <= i < p ==> s[i].at <= at
    ensures p < |s| ==> s[p].at > at
  {
    if s == [] || s[0].at > at then 0 else
      var q := Pos(s[1..], at);
      assert forall i :: 1 <= i < q + 1 ==> s[i] == s[1..][i - 1];
      q + 1
  }

  function Place(s: seq<Due>, d: Due): seq<Due> {
    var p := Pos(s, d.at);
    InsertAt(s, p, d)
  }

  /** The index of `id`, or the length of the list. */
  function FindDue(s: seq<Due>, id: nat): (p: nat)
    ensures p <= |s|
    ensures forall i :: 0 <= i < p ==> s[i].id != id
    ensures p < |s| ==> s[p].id == id
    ensures p < |s| <==> Linked(s, id)
  {
    if s == [] || s[0].id == id then 0 else
      var q := FindDue(s[1..], id);
      assert forall i :: 1 <= i < |s| ==> s[i] == s[1..][i - 1];
      q + 1
  }

  function Drop(s: seq<Due>, id: nat): seq<Due> {
    var p := FindDue(s, id);
    if p < |s| then RemoveAt(s, p) else s
  }

  // ----- Steps -----

  /** When an accepted request expires: at the tick asked for, never before the next tick. */
  function ExpiryOf(now: int, remaining: nat, timeout: int, hw: nat): (at: int)
    ensures timeout != K_TICKS_FOREVER ==> at > now
  {
    if TickAbs(timeout) >= 0 then (if TickAbs(timeout) > now then TickAbs(timeout) else now + 1)
    else now + timeout + 1 + (if remaining == 0 then hw else 0)
  }

  function Armed(c: Clock, d: Due): Clock {
    c.(pend := InsertAt(c.pend, Pos(Erase(c.pend), d.at), Inst(d, |c.armed|)), armed := c.armed + [Inst(d, |c.armed|)])
  }

  function CancelledAt(c: Clock, p: nat): Clock
    requires p < |c.pend|
  {
    c.(pend := RemoveAt(c.pend, p), cancelled := c.cancelled + [c.pend[p]])
  }

  /** `remaining` is the part of the running announcement that is still to be accounted for (0 outside one). */
  function Exec(c: Clock, op: Op, remaining: nat): Clock
  {
    match op
    case Arm(id, timeout, hw) =>
      // Arming a linked entry is an assertion failure in the kernel; it changes nothing here.
      if timeout == K_TICKS_FOREVER || Linked(Erase(c.pend), id) then c
      else
        Armed(c, Due(id, ExpiryOf(c.now, remaining, timeout, hw)))
    case Cancel(id) =>
      var p := FindDue(Erase(c.pend), id);
      if p < |c.pend| then CancelledAt(c, p) else c
  }

  /** The same on unstamped lists. */
  function ExecDues(now: int, s: seq<Due>, op: Op, remaining: nat): seq<Due>
  {
    match op
    case Arm(id, timeout, hw) =>
      if timeout == K_TICKS_FOREVER || Linked(s, id) then s
      else Place(s, Due(id, ExpiryOf(now, remaining, timeout, hw)))
    case Cancel(id) => Drop(s, id)
  }

  function ExecAll(c: Clock, ops: seq<Op>, remaining: nat): Clock
    decreases |ops|
  {
    if ops == [] then c else ExecAll(Exec(c, ops[0], remaining), ops[1..], remaining)
  }

  ghost predicate NotOverdue(c: Clock) { forall i :: 0 <= i < |c.pend| ==> c.now <= c.pend[i].due.at }

  /** How many entries are due right now. */
  function DueNow(s: seq<Inst>, now: int): nat
  {
    if s == [] then 0 else (if s[0].due.at <= now then 1 else 0) + DueNow(s[1..], now)
  }

  lemma {:induction false} DueNowInsert(s: seq<Inst>, p: nat, x: Inst, now: int)
    requires p <= |s|
    ensures DueNow(InsertAt(s, p, x), now) == DueNow(s, now) + (if x.due.at <= now then 1 else 0)
  {
    var r := InsertAt(s, p, x);
    if p == 0 {
      assert r[1..] == s;
    } else {
      assert r[1..] == InsertAt(s[1..], p - 1, x);
      DueNowInsert(s[1..], p - 1, x, now);
    }
  }

  lemma ArmedNotDue(c: Clock, d: Due)
    requires NotOverdue(c) && d.at > c.now
    ensures NotOverdue(Armed(c, d)) && DueNow(Armed(c, d).pend, c.now) == DueNow(c.pend, c.now)
  {
    DueNowInsert(c.pend, Pos(Erase(c.pend), d.at), Inst(d, |c.armed|), c.now);
  }

  lemma CancelledNotDue(c: Clock, p: nat)
    requires NotOverdue(c) && p < |c.pend|
    ensures NotOverdue(CancelledAt(c, p)) && DueNow(CancelledAt(c, p).pend, c.now) <= DueNow(c.pend, c.now)
  {
    var s := CancelledAt(c, p).pend;
    assert c.pend == InsertAt(s, p, c.pend[p]);
    DueNowInsert(s, p, c.pend[p], c.now);
  }

  /** An operation never makes anything due at once, so it cannot prolong the processing of the present tick. */
  lemma ExecNotDue(c: Clock, op: Op, remaining: nat)
    requires NotOverdue(c)
    ensures NotOverdue(Exec(c, op, remaining))
    ensures Exec(c, op, remaining).now == c.now && Exec(c, op, remaining).fired == c.fired
    ensures DueNow(Exec(c, op, remaining).pend, c.now) <= DueNow(c.pend, c.now)
  {
    match op
    case Arm(id, timeout, hw) =>
      if timeout != K_TICKS_FOREVER {
        ArmedNotDue(c, Due(id, ExpiryOf(c.now, remaining, timeout, hw)));
      }
    case Cancel(id) =>
      var p := FindDue(Erase(c.pend), id);
      if p < |c.pend| {
        CancelledNotDue(c, p);
      }
  }

  lemma {:induction false} ExecAllNotDue(c: Clock, ops: seq<Op>, remaining: nat)
    requires NotOverdue(c)
    ensures var d := ExecAll(c, ops, remaining);
            NotOverdue(d) && d.now == c.now && d.fired == c.fired && DueNow(d.pend, c.now) <= DueNow(c.pend, c.now)
    decreases |ops|
  {
    if ops != [] {
      ExecNotDue(c, ops[0], remaining);
      ExecAllNotDue(Exec(c, ops[0], remaining), ops[1..], remaining);
    }
  }

  /** The head expires: the clock moves to its deadline and its handler runs. */
  function FireHead(c: Clock): Clock
    requires c.pend != []
  {
    c.(now := c.pend[0].due.at, pend := c.pend[1..], fired := c.fired + [c.pend[0]])
  }

  function FireOne(c: Clock, until: int, h: Handlers): Clock
    requires c.pend != [] && c.pend[0].due.at <= until
  {
    ExecAll(FireHead(c), h(|c.fired|, c.pend[0].due.id), until - c.pend[0].due.at)
  }

  ghost predicate Ordered(c: Clock) { NotOverdue(c) && Ascending(Erase(c.pend)) }

  lemma EraseInsert(pend: seq<Inst>, p: nat, x: Inst)
    requires p <= |pend|
    ensures Erase(InsertAt(pend, p, x)) == InsertAt(Erase(pend), p, x.due)
  {
  }

  lemma EraseRemove(pend: seq<Inst>, p: nat)
    requires p < |pend|
    ensures Erase(RemoveAt(pend, p)) == RemoveAt(Erase(pend), p)
  {
  }

  /** The stamps play no part in what happens. */
  lemma EraseExec(c: Clock, op: Op, remaining: nat)
    ensures Erase(Exec(c, op, remaining).pend) == ExecDues(c.now, Erase(c.pend), op, remaining)
  {
    hide ExpiryOf, Linked, Pos, FindDue, InsertAt, RemoveAt;
    var s := Erase(c.pend);
    match op
    case Arm(id, timeout, hw) =>
      var d := Due(id, ExpiryOf(c.now, remaining, timeout, hw));
      EraseInsert(c.pend, Pos(s, d.at), Inst(d, |c.armed|));
    case Cancel(id) =>
      if FindDue(s, id) < |c.pend| {
        EraseRemove(c.pend, FindDue(s, id));
      }
  }

  lemma PlaceAscending(s: seq<Due>, d: Due)
    requires Ascending(s)
    ensures Ascending(Place(s, d))
  {
  }

  lemma {:induction false} ExecOrdered(c: Clock, op: Op, remaining: nat)
    requires Ordered(c)
    ensures Ordered(Exec(c, op, remaining))
  {
    var d := Exec(c, op, remaining);
    ExecNotDue(c, op, remaining);
    EraseExec(c, op, remaining);
    var e := Erase(c.pend);
    match op
    case Arm(id, timeout, hw) =>
      PlaceAscending(e, Due(id, ExpiryOf(c.now, remaining, timeout, hw)));
    case Cancel(id) =>
  }

  lemma {:induction false} ExecAllOrdered(c: Clock, ops: seq<Op>, remaining: nat)
    requires Ordered(c)
    ensures Ordered(ExecAll(c, ops, remaining))
    decreases |ops|
  {
    if ops != [] {
      ExecOrdered(c, ops[0], remaining);
      ExecAllOrdered(Exec(c, ops[0], remaining), ops[1..], remaining);
    }
  }

  lemma FireHeadOrdered(c: Clock)
    requires Ordered(c) && c.pend != []
    ensures Ordered(FireHead(c))
  {
    var m := FireHead(c);
    assert forall i :: 0 <= i < |m.pend| ==> Erase(m.pend)[i] == Erase(c.pend)[i + 1];
    forall i | 0 <= i < |m.pend| ensures m.now <= m.pend[i].due.at {
      assert Erase(c.pend)[0].at <= Erase(c.pend)[i + 1].at;
    }
  }

  /** Every round of the announcement makes progress, whatever the handler does. */
  lemma {:induction false} FireOneProgress(c: Clock, until: int, h: Handlers)
    requires Ordered(c) && c.pend != [] && c.pend[0].due.at <= until
    ensures var d := FireOne(c, until, h);
            && Ordered(d) && c.now <= d.now == c.pend[0].due.at <= until && d.fired == c.fired + [c.pend[0]]
            && (d.now > c.now || DueNow(d.pend, d.now) < DueNow(c.pend, c.now))
  {
    var m := FireHead(c);
    FireHeadOrdered(c);
    hide Erase, ExecAll;
    var ops := h(|c.fired|, c.pend[0].due.id);
    ExecAllNotDue(m, ops, until - m.now);
    ExecAllOrdered(m, ops, until - m.now);
  }

  /** The announcement loop.  It terminates for all handlers: each adds finitely many entries, none due at once. */
  ghost function Expire(c: Clock, until: int, h: Handlers): Clock
    requires Ordered(c)
    decreases until - c.now, DueNow(c.pend, c.now)
  {
    if c.pend != [] && c.pend[0].due.at <= until then
      FireOneProgress(c, until, h);
      Expire(FireOne(c, until, h), until, h)
    else c
  }

  ghost function Announce(c: Clock, ticks: nat, h: Handlers): Clock
    requires Ordered(c)
  {
    Expire(c, c.now + ticks, h).(now := c.now + ticks)
  }
}
