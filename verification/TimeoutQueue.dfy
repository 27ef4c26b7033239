/** The delta list of kernel/timeout.c: every entry stores the ticks that separate it from its predecessor. */
module TimeoutQueue {
  import opened Lists
  import opened Deadlines

  const EINVAL := 22

  datatype Node = Node(id: nat, dticks: int)

  function Sum(l: seq<Node>, k: nat): int
    requires k <= |l|
  {
    if k == 0 then 0 else Sum(l, k - 1) + l[k - 1].dticks
  }

  /** The deadlines that a delta list stands for: the present tick plus the prefix sum. */
  function Dues(now: int, l: seq<Node>): seq<Due> {
    seq(|l|, i requires 0 <= i < |l| => Due(l[i].id, now + Sum(l, i + 1)))
  }

  ghost predicate NonNegative(l: seq<Node>) { forall i :: 0 <= i < |l| ==> l[i].dticks >= 0 }

  /** Two lists that agree from some point on have prefix sums that differ by a constant from there on. */
  lemma {:induction false} SumShift(a: seq<Node>, i: nat, b: seq<Node>, j: nat, k: nat)
    requires i + k <= |a| && j + k <= |b|
    requires forall m :: i <= m < i + k ==> a[m] == b[m - i + j]
    ensures Sum(a, i + k) - Sum(a, i) == Sum(b, j + k) - Sum(b, j)
  {
    if k > 0 {
      SumShift(a, i, b, j, k - 1);
      assert a[i + k - 1] == b[j + k - 1];
    }
  }

  function Spliced(l: seq<Node>, i: nat, id: nat, d: int): seq<Node>
    requires i <= |l|
  {
    l[..i] + [Node(id, d)] + (if i < |l| then [Node(l[i].id, l[i].dticks - d)] + l[i + 1..] else [])
  }

  lemma SplicedSum(l: seq<Node>, i: nat, id: nat, d: int, k: nat)
    requires i <= |l| && k <= |l|
    ensures var r := Spliced(l, i, id, d);
      && |r| == |l| + 1
      && (k < i ==> r[k] == l[k] && Sum(r, k + 1) == Sum(l, k + 1))
      && (k == i ==> r[k] == Node(id, d) && Sum(r, k + 1) == Sum(l, i) + d)
      && (k > i ==> r[k].id == l[k - 1].id && Sum(r, k + 1) == Sum(l, k))
  {
    var r := Spliced(l, i, id, d);
    SumShift(r, 0, l, 0, if k < i then k + 1 else i);
    if k > i {
      assert Sum(r, i + 2) == Sum(r, i) + r[i].dticks + r[i + 1].dticks;
      assert Sum(l, i + 1) == Sum(l, i) + l[i].dticks;
      hide Sum;
      SumShift(r, i + 2, l, i + 1, k - 1 - i);
    }
  }

  /** Splitting the delta of the entry at `i` inserts one deadline and moves no other. */
  lemma {:induction false} SplicedDues(now: int, l: seq<Node>, i: nat, id: nat, d: int)
    requires i <= |l|
    ensures Dues(now, Spliced(l, i, id, d)) == InsertAt(Dues(now, l), i, Due(id, now + Sum(l, i) + d))
  {
    hide Sum, Spliced;
    var r := Spliced(l, i, id, d);
    SplicedSum(l, i, id, d, i);
    forall k | 0 <= k < |r|
      ensures Dues(now, r)[k] == InsertAt(Dues(now, l), i, Due(id, now + Sum(l, i) + d))[k]
    {
      SplicedSum(l, i, id, d, k);
    }
  }

  function Unspliced(l: seq<Node>, i: nat): seq<Node>
    requires i < |l|
  {
    l[..i] + (if i + 1 < |l| then [Node(l[i + 1].id, l[i + 1].dticks + l[i].dticks)] + l[i + 2..] else [])
  }

  /** Handing the delta of a removed entry to its successor removes one deadline and moves no other. */
  lemma {:induction false} UnsplicedDues(now: int, l: seq<Node>, i: nat)
    requires i < |l|
    ensures Dues(now, Unspliced(l, i)) == RemoveAt(Dues(now, l), i)
  {
    var r := Unspliced(l, i);
    forall k | 0 <= k < |r| ensures Dues(now, r)[k] == RemoveAt(Dues(now, l), i)[k] {
      SumShift(r, 0, l, 0, if k < i then k + 1 else i);
      if k >= i {
        assert Sum(l, i + 2) == Sum(l, i) + l[i].dticks + l[i + 1].dticks;
        assert Sum(r, i + 1) == Sum(r, i) + r[i].dticks;
        SumShift(r, i + 1, l, i + 2, k - i);
      }
    }
  }

  lemma PosUnique(s: seq<Due>, at: int, p: nat)
    requires p <= |s|
    requires forall i :: 0 <= i < p ==> s[i].at <= at
    requires p < |s| ==> s[p].at > at
    ensures p == Pos(s, at)
  {
  }

  /** Stopping at the first entry whose delta exceeds what is left of the new one's finds its place. */
  lemma {:induction false} SplicedPlace(now: int, l: seq<Node>, i: nat, id: nat, d: int)
    requires i <= |l| && NonNegative(l) && d >= 0
    requires forall k :: 1 <= k <= i ==> Sum(l, k) <= Sum(l, i) + d
    requires i < |l| ==> l[i].dticks > d
    ensures NonNegative(Spliced(l, i, id, d))
    ensures Dues(now, Spliced(l, i, id, d)) == Place(Dues(now, l), Due(id, now + Sum(l, i) + d))
  {
    SplicedDues(now, l, i, id, d);
    var s := Dues(now, l);
    var at := now + Sum(l, i) + d;
    assert i < |l| ==> s[i].at == now + Sum(l, i) + l[i].dticks;
    hide Sum;
    forall k | 0 <= k < i ensures s[k].at <= at {
      assert Sum(l, k + 1) <= Sum(l, i) + d;
    }
    PosUnique(s, at, i);
  }

  lemma PlaceHas(s: seq<Due>, d: Due)
    ensures d in Place(s, d)
  {
    assert InsertAt(s, Pos(s, d.at), d)[Pos(s, d.at)] == d;
  }

  lemma SumOne(l: seq<Node>)
    requires l != []
    ensures Sum(l, 1) == l[0].dticks
  {
  }

  lemma ExecNow(c: Clock, op: Op, remaining: nat)
    ensures Exec(c, op, remaining).now == c.now
  {
  }

  lemma EraseAppend(s: seq<Inst>, x: Inst)
    ensures Erase(s + [x]) == Erase(s) + [x.due]
  {
  }

  lemma HeadDue(now: int, l: seq<Node>, c: Clock)
    requires l != [] && Dues(now, l) == Erase(c.pend)
    ensures c.pend != [] && c.pend[0].due == Due(l[0].id, now + l[0].dticks)
  {
    SumOne(l);
    assert Dues(now, l)[0] == Erase(c.pend)[0];
  }

  lemma {:induction false} ShortenHead(now: int, l: seq<Node>, d: int)
    requires l != []
    ensures Dues(now + d, l[0 := Node(l[0].id, l[0].dticks - d)]) == Dues(now, l)
  {
    var r := l[0 := Node(l[0].id, l[0].dticks - d)];
    forall k | 0 <= k < |l| ensures Dues(now + d, r)[k] == Dues(now, l)[k] {
      SumOne(r);
      SumOne(l);
      SumShift(r, 1, l, 1, k);
    }
  }

  /** Moving the clock to the first deadline and zeroing its delta leaves all deadlines where they are. */
  lemma HeadFires(now: int, l: seq<Node>)
    requires l != []
    ensures Dues(now + l[0].dticks, l[0 := Node(l[0].id, 0)]) == Dues(now, l)
  {
    ShortenHead(now, l, l[0].dticks);
  }

  class TimeoutQueue {
    var currTick: int
    var announceRemaining: nat
    var list: seq<Node>

    ghost function View(): seq<Due>
      reads this
    {
      Dues(currTick, list)
    }

    ghost predicate Valid()
      reads this
    {
      NonNegative(list)
    }

    /** The queue stands for the reference state `c`. */
    ghost predicate Refines(c: Clock)
      reads this
    {
      Valid() && currTick == c.now && View() == Erase(c.pend)
    }

    constructor ()
      ensures Refines(BOOT) && announceRemaining == 0
    {
      currTick, announceRemaining, list := 0, 0, [];
    }

    /** elapsed() */
    function Elapsed(hw: nat): nat
      reads this
    {
      if announceRemaining == 0 then hw else 0
    }

    /** The ticks from the last announced tick to the expiry of an accepted request. */
    method Delta(timeout: int, hw: nat) returns (dticks: int)
      requires timeout != K_TICKS_FOREVER
      ensures dticks >= 1 && currTick + dticks == ExpiryOf(currTick, announceRemaining, timeout, hw)
      ensures currTick + dticks ==
        if timeout < K_TICKS_FOREVER then (if -2 - timeout > currTick then -2 - timeout else currTick + 1)
        else currTick + timeout + 1 + (if announceRemaining == 0 then hw else 0)
    {
      if TickAbs(timeout) >= 0 {
        var ticks := TickAbs(timeout) - currTick;
        dticks := if ticks > 1 then ticks else 1;
      } else {
        dticks := timeout + 1 + Elapsed(hw);
      }
    }

    /** The walk along the list: deltas are used up until one exceeds what is left. */
    method Insert(id: nat, delta: int)
      requires Valid() && delta >= 1 && !Linked(View(), id)
      modifies this`list
      ensures Valid() && View() == Place(old(View()), Due(id, currTick + delta))
    {
      var dticks, i := delta, 0;
      while i < |list| && list[i].dticks <= dticks
        invariant 0 <= i <= |list| && dticks >= 0
        invariant Sum(list, i) + dticks == delta
        invariant forall k :: 1 <= k <= i ==> Sum(list, k) <= delta
      {
        dticks := dticks - list[i].dticks;
        i := i + 1;
      }
      SplicedPlace(currTick, list, i, id, dticks);
      list := Spliced(list, i, id, dticks);
    }

    /** z_add_timeout() */
    method Add(id: nat, timeout: int, hw: nat)
      requires Valid() && !Linked(View(), id)
      modifies this`list
      ensures Valid()
      ensures View() == ExecDues(currTick, old(View()), Arm(id, timeout, hw), announceRemaining)
      ensures timeout < K_TICKS_FOREVER ==> Due(id, if -2 - timeout > currTick then -2 - timeout else currTick + 1) in View()
      ensures timeout > K_TICKS_FOREVER ==> Due(id, currTick + timeout + 1 + (if announceRemaining == 0 then hw else 0)) in View()
    {
      hide Place, Linked;
      if timeout == K_TICKS_FOREVER {
        return;
      }
      var dticks := Delta(timeout, hw);
      PlaceHas(View(), Due(id, currTick + dticks));
      Insert(id, dticks);
    }

    /** remove_timeout() */
    method Remove(p: nat)
      requires Valid() && p < |list|
      modifies this`list
      ensures Valid() && View() == RemoveAt(old(View()), p)
    {
      UnsplicedDues(currTick, list, p);
      list := Unspliced(list, p);
    }

    /** z_abort_timeout() */
    method Abort(id: nat) returns (ret: int)
      requires Valid()
      modifies this`list
      ensures Valid() && View() == ExecDues(currTick, old(View()), Cancel(id), announceRemaining)
      ensures ret == if old(Linked(View(), id)) then 0 else -EINVAL
    {
      var p := FindDue(Dues(currTick, list), id);
      ret := -EINVAL;
      if p < |list| {
        Remove(p);
        ret := 0;
      }
    }

    /** timeout_rem(), z_timeout_remaining() */
    method Remaining(id: nat, hw: nat) returns (ticks: int)
      requires Valid()
      ensures !Linked(View(), id) ==> ticks == 0
      ensures Linked(View(), id) ==> ticks == View()[FindDue(View(), id)].at - (currTick + Elapsed(hw))
    {
      ticks := 0;
      ghost var p := FindDue(View(), id);
      if !Linked(Dues(currTick, list), id) {
        return;
      }
      var i := 0;
      while i < |list|
        invariant 0 <= i <= p
        invariant ticks == Sum(list, i)
      {
        ticks := ticks + list[i].dticks;
        if list[i].id == id {
          assert View()[i].id == id;
          break;
        }
        assert View()[i].id != id;
        i := i + 1;
      }
      ticks := ticks - Elapsed(hw);
    }

    /** The body of an expiry handler: any finite list of operations on the queue. */
    method Perform(ops: seq<Op>, ghost c: Clock)
      requires Refines(c)
      modifies this`list
      ensures Refines(ExecAll(c, ops, announceRemaining))
    {
      var i := 0;
      ghost var e := c;
      while i < |ops|
        invariant 0 <= i <= |ops| && Refines(e)
        invariant ExecAll(c, ops, announceRemaining) == ExecAll(e, ops[i..], announceRemaining)
      {
        EraseExec(e, ops[i], announceRemaining);
        ExecNow(e, ops[i], announceRemaining);
        match ops[i] {
          case Arm(id, timeout, hw) =>
            if !Linked(Dues(currTick, list), id) {
              Add(id, timeout, hw);
            }
          case Cancel(id) =>
            var ret := Abort(id);
        }
        e := Exec(e, ops[i], announceRemaining);
        assert ops[i..][1..] == ops[i + 1..];
        i := i + 1;
      }
    }

    /** The locked part of one round of the announcement: the clock moves to the first deadline. */
    method TakeHead(ghost c: Clock) returns (id: nat)
      requires Refines(c) && list != [] && list[0].dticks <= announceRemaining
      modifies this
      ensures c.pend != [] && Refines(FireHead(c)) && id == c.pend[0].due.id
      ensures announceRemaining + currTick == old(announceRemaining) + c.now
    {
      HeadDue(currTick, list, c);
      HeadFires(currTick, list);
      EraseTail(c.pend);
      var dt := list[0].dticks;
      id := list[0].id;
      currTick := currTick + dt;
      announceRemaining := announceRemaining - dt;
      list := list[0 := Node(id, 0)];
      Remove(0);
    }

    /** One round of the announcement, the handler included. */
    method Round(h: Handlers, calls: nat, ghost c: Clock, ghost until: int) returns (called: Due)
      requires Refines(c) && Ordered(c) && list != [] && list[0].dticks <= announceRemaining == until - currTick
      requires calls == |c.fired|
      modifies this
      ensures c.pend != [] && c.pend[0].due.at <= until && announceRemaining == until - currTick
      ensures Refines(FireOne(c, until, h)) && called == c.pend[0].due
    {
      HeadDue(currTick, list, c);
      var t := TakeHead(c);
      called := Due(t, currTick);
      Perform(h(calls, t), FireHead(c));
      FireOneProgress(c, until, h);
    }

    /** What is left of the announcement after the last expiry. */
    method Finish()
      requires Valid() && (list != [] ==> list[0].dticks >= announceRemaining)
      modifies this
      ensures Valid() && View() == old(View()) && announceRemaining == 0
      ensures currTick == old(currTick) + old(announceRemaining)
    {
      if list != [] {
        ShortenHead(currTick, list, announceRemaining);
        list := list[0 := Node(list[0].id, list[0].dticks - announceRemaining)];
      }
      currTick := currTick + announceRemaining;
      announceRemaining := 0;
    }

    /** sys_clock_announce(); the log records the tick at which each handler is called. */
    method Announced(ticks: nat, h: Handlers, calls: nat, ghost c: Clock) returns (log: seq<Due>)
      requires Refines(c) && Ordered(c) && announceRemaining == 0 && calls == |c.fired|
      modifies this
      ensures Refines(Announce(c, ticks, h)) && announceRemaining == 0
      ensures Erase(Announce(c, ticks, h).fired) == Erase(c.fired) + log
    {
      hide NonNegative, Ordered, FireOne;
      log := [];
      announceRemaining := ticks;
      ghost var e, until := c, currTick + ticks;
      while list != [] && list[0].dticks <= announceRemaining
        invariant Refines(e) && Ordered(e) && announceRemaining == until - currTick
        invariant Expire(c, until, h) == Expire(e, until, h)
        invariant Erase(e.fired) == Erase(c.fired) + log && calls + |log| == |e.fired|
        decreases until - e.now, DueNow(e.pend, e.now)
      {
        var called := Round(h, calls + |log|, e, until);
        log := log + [called];
        FireOneProgress(e, until, h);
        EraseAppend(e.fired, e.pend[0]);
        e := FireOne(e, until, h);
      }
      if list != [] {
        HeadDue(currTick, list, e);
      }
      Finish();
    }
  }
}
