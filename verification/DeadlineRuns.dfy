/** What holds of the timeout queue over every run: order of expiry, and every arming accounted for exactly once. */
module DeadlineRuns {
  import opened Lists
  import opened Deadlines

  /** Deadline first; among equal deadlines, the one armed first. */
  predicate Before(a: Inst, b: Inst) {
    a.due.at < b.due.at || (a.due.at == b.due.at && a.stamp < b.stamp)
  }

  ghost predicate Sequenced(s: seq<Inst>) { forall i, j :: 0 <= i < j < |s| ==> Before(s[i], s[j]) }

  /** Each arming is exactly one of expired, cancelled and pending. */
  ghost predicate Accounted(c: Clock) {
    multiset(c.armed) == multiset(c.fired) + multiset(c.cancelled) + multiset(c.pend)
  }

  ghost predicate Stamped(s: seq<Inst>) { forall k :: 0 <= k < |s| ==> s[k].stamp == k }

  /** In deadline order, first-armed-first, what has expired together with what is still to come. */
  ghost predicate InOrder(c: Clock) {
    Sequenced(c.fired + c.pend) && NotOverdue(c) && forall i :: 0 <= i < |c.fired| ==> c.fired[i].due.at <= c.now
  }

  ghost predicate Inv(c: Clock) {
    InOrder(c) && Distinct(Erase(c.pend)) && Accounted(c) && Stamped(c.armed)
  }

  /** Between announcements nothing is due. */
  ghost predicate Idle(c: Clock) { forall i :: 0 <= i < |c.pend| ==> c.pend[i].due.at > c.now }

  lemma SequencedSuffix(a: seq<Inst>, b: seq<Inst>)
    requires Sequenced(a + b)
    ensures Sequenced(b)
  {
    forall i, j | 0 <= i < j < |b| ensures Before(b[i], b[j]) {
      assert Before((a + b)[|a| + i], (a + b)[|a| + j]);
    }
  }

  /** An arming occurs once among the armings. */
  lemma {:induction false} StampedOnce(s: seq<Inst>, x: Inst)
    requires Stamped(s)
    ensures multiset(s)[x] <= 1 && (x in s ==> x.stamp < |s|)
  {
    if s != [] {
      var t := s[..|s| - 1];
      assert s == t + [s[|s| - 1]];
      StampedOnce(t, x);
    }
  }

  // ----- One step -----

  lemma {:induction false} InsertSequenced(s: seq<Inst>, q: nat, x: Inst)
    requires Sequenced(s) && q <= |s|
    requires forall i :: 0 <= i < q ==> Before(s[i], x)
    requires q < |s| ==> Before(x, s[q])
    ensures Sequenced(InsertAt(s, q, x))
  {
  }

  lemma {:induction false} RemoveSequenced(s: seq<Inst>, q: nat)
    requires Sequenced(s) && q < |s|
    ensures Sequenced(RemoveAt(s, q))
  {
  }

  /** Where a new entry goes, it comes after all that has expired or is due no later, and before all that is due later. */
  lemma ArmedPlace(c: Clock, d: Due)
    requires InOrder(c) && d.at > c.now
    requires forall i :: 0 <= i < |c.pend| ==> c.pend[i].stamp < |c.armed|
    ensures var s, q := c.fired + c.pend, |c.fired| + Pos(Erase(c.pend), d.at);
      && q <= |s| && (forall i :: 0 <= i < q ==> Before(s[i], Inst(d, |c.armed|)))
      && (q < |s| ==> s[q].due.at > d.at)
  {
    hide Sequenced, Pos;
    var e, p, x := Erase(c.pend), Pos(Erase(c.pend), d.at), Inst(d, |c.armed|);
    var s, q := c.fired + c.pend, |c.fired| + p;
    forall i | 0 <= i < q ensures Before(s[i], x) {
      if i >= |c.fired| {
        assert s[i] == c.pend[i - |c.fired|] && e[i - |c.fired|].at <= d.at;
      } else {
        assert s[i] == c.fired[i];
      }
    }
    assert q < |s| ==> s[q] == c.pend[p] && e[p].at > d.at;
  }

  lemma {:induction false} ArmedInOrder(c: Clock, d: Due)
    requires InOrder(c) && d.at > c.now
    requires forall i :: 0 <= i < |c.pend| ==> c.pend[i].stamp < |c.armed|
    ensures InOrder(Armed(c, d))
  {
    ArmedPlace(c, d);
    hide Sequenced, Before, Erase, Pos, InsertAt;
    var p, x := Pos(Erase(c.pend), d.at), Inst(d, |c.armed|);
    InsertSequenced(c.fired + c.pend, |c.fired| + p, x);
    InsertAtConcat(c.fired, c.pend, p, x);
    ArmedNotDue(c, d);
  }

  lemma InsertDistinctIds(s: seq<Due>, p: nat, d: Due)
    requires p <= |s| && Distinct(s) && !Linked(s, d.id)
    ensures Distinct(InsertAt(s, p, d))
  {
    hide InsertAt;
  }

  lemma InsertDistinct(s: seq<Inst>, p: nat, x: Inst)
    requires p <= |s| && Distinct(Erase(s)) && !Linked(Erase(s), x.due.id)
    ensures Distinct(Erase(InsertAt(s, p, x)))
  {
    hide Distinct;
    assert Erase(InsertAt(s, p, x)) == InsertAt(Erase(s), p, x.due);
    InsertDistinctIds(Erase(s), p, x.due);
  }

  lemma RemoveDistinct(s: seq<Due>, p: nat)
    requires Distinct(s) && p < |s|
    ensures Distinct(RemoveAt(s, p)) && !Linked(RemoveAt(s, p), s[p].id)
  {
  }

  lemma EraseLength(s: seq<Inst>)
    ensures |Erase(s)| == |s|
  {
  }

  lemma {:induction false} ArmedInv(c: Clock, d: Due)
    requires Inv(c) && d.at > c.now && !Linked(Erase(c.pend), d.id)
    ensures Inv(Armed(c, d))
  {
    hide InOrder, Distinct, Erase, Pos, InsertAt, Linked;
    var p := Pos(Erase(c.pend), d.at);
    assert |Erase(c.pend)| == |c.pend| by {
      EraseLength(c.pend);
    }
    forall i | 0 <= i < |c.pend| ensures c.pend[i].stamp < |c.armed| {
      StampedOnce(c.armed, c.pend[i]);
      assert c.pend[i] in multiset(c.pend) && c.pend[i] in multiset(c.armed);
    }
    InsertDistinct(c.pend, p, Inst(d, |c.armed|));
    ArmedInOrder(c, d);
    InsertAtMultiset(c.pend, p, Inst(d, |c.armed|));
  }

  lemma CancelledInOrder(c: Clock, p: nat)
    requires InOrder(c) && p < |c.pend|
    ensures InOrder(CancelledAt(c, p))
  {
    hide Sequenced;
    var e := CancelledAt(c, p);
    CancelledNotDue(c, p);
    RemoveSequenced(c.fired + c.pend, |c.fired| + p);
    assert c.fired + e.pend == RemoveAt(c.fired + c.pend, |c.fired| + p);
  }

  lemma {:induction false} CancelledInv(c: Clock, p: nat)
    requires Inv(c) && p < |c.pend|
    ensures Inv(CancelledAt(c, p))
  {
    hide InOrder, Distinct, Erase, RemoveAt;
    RemoveAtMultiset(c.pend, p);
    CancelledInOrder(c, p);
    EraseLength(c.pend);
    RemoveDistinct(Erase(c.pend), p);
    EraseRemove(c.pend, p);
    assert Accounted(CancelledAt(c, p));
  }

  lemma {:induction false} ExecInv(c: Clock, op: Op, remaining: nat)
    requires Inv(c)
    ensures Inv(Exec(c, op, remaining)) && c.armed <= Exec(c, op, remaining).armed
  {
    match op
    case Arm(id, timeout, hw) =>
      if timeout != K_TICKS_FOREVER && !Linked(Erase(c.pend), id) {
        ArmedInv(c, Due(id, ExpiryOf(c.now, remaining, timeout, hw)));
      }
    case Cancel(id) =>
      if FindDue(Erase(c.pend), id) < |c.pend| {
        CancelledInv(c, FindDue(Erase(c.pend), id));
      }
  }

  lemma {:induction false} ExecAllInv(c: Clock, ops: seq<Op>, remaining: nat)
    requires Inv(c)
    ensures Inv(ExecAll(c, ops, remaining)) && c.armed <= ExecAll(c, ops, remaining).armed
    decreases |ops|
  {
    if ops != [] {
      ExecInv(c, ops[0], remaining);
      ExecAllInv(Exec(c, ops[0], remaining), ops[1..], remaining);
    }
  }

  lemma FireHeadOrder(c: Clock)
    requires InOrder(c) && c.pend != []
    ensures InOrder(FireHead(c))
  {
    var d := FireHead(c);
    assert d.fired + d.pend == c.fired + c.pend;
    SequencedSuffix(c.fired, c.pend);
    assert forall i :: 0 <= i < |d.pend| ==> d.pend[i] == c.pend[i + 1] && Before(c.pend[0], c.pend[i + 1]);
  }

  lemma {:induction false} FireHeadInv(c: Clock)
    requires Inv(c) && c.pend != []
    ensures Inv(FireHead(c))
  {
    var d := FireHead(c);
    FireHeadOrder(c);
    hide InOrder, Stamped;
    assert c.pend == [c.pend[0]] + d.pend;
    assert Accounted(d);
    assert Erase(d.pend) == Erase(c.pend)[1..];
  }

  // ----- Announcements -----

  lemma FireOneInv(c: Clock, until: int, h: Handlers)
    requires Inv(c) && Ordered(c) && c.pend != [] && c.pend[0].due.at <= until
    ensures Inv(FireOne(c, until, h)) && c.armed <= FireOne(c, until, h).armed
  {
    hide Inv, ExecAll, Ordered;
    FireHeadInv(c);
    ExecAllInv(FireHead(c), h(|c.fired|, c.pend[0].due.id), until - c.pend[0].due.at);
  }

  lemma {:induction false} ExpireInv(c: Clock, until: int, h: Handlers)
    requires Inv(c) && Ordered(c)
    ensures Inv(Expire(c, until, h)) && c.armed <= Expire(c, until, h).armed
    decreases until - c.now, DueNow(c.pend, c.now)
  {
    if c.pend != [] && c.pend[0].due.at <= until {
      FireOneInv(c, until, h);
      FireOneProgress(c, until, h);
      ExpireInv(FireOne(c, until, h), until, h);
    }
  }

  /** The log only grows, by entries due within the announcement; what is left is due later. */
  lemma {:induction false} ExpireBounds(c: Clock, until: int, h: Handlers)
    requires Ordered(c) && c.now <= until
    ensures var d := Expire(c, until, h);
            && Ordered(d) && c.now <= d.now <= until && c.fired <= d.fired
            && (forall i :: 0 <= i < |d.pend| ==> d.pend[i].due.at > until)
            && (forall i :: |c.fired| <= i < |d.fired| ==> c.now <= d.fired[i].due.at <= until)
    decreases until - c.now, DueNow(c.pend, c.now)
  {
    if c.pend != [] && c.pend[0].due.at <= until {
      FireOneProgress(c, until, h);
      var m := FireOne(c, until, h);
      ExpireBounds(m, until, h);
      assert Expire(m, until, h).fired[|c.fired|] == c.pend[0];
    } else {
      forall i | 0 <= i < |c.pend| ensures c.pend[i].due.at > until {
        assert Erase(c.pend)[0].at <= Erase(c.pend)[i].at;
      }
    }
  }

  /** Starting from an idle queue, what fires was due strictly later than the start. */
  lemma {:induction false} ExpireLater(c: Clock, until: int, h: Handlers)
    requires Ordered(c) && c.now <= until && Idle(c)
    ensures var d := Expire(c, until, h);
            c.fired <= d.fired && forall i :: |c.fired| <= i < |d.fired| ==> c.now < d.fired[i].due.at
  {
    if c.pend != [] && c.pend[0].due.at <= until {
      FireOneProgress(c, until, h);
      var m := FireOne(c, until, h);
      ExpireBounds(m, until, h);
      assert Expire(m, until, h).fired[|c.fired|] == c.pend[0];
    }
  }

  lemma AdvanceInOrder(c: Clock, until: int)
    requires InOrder(c) && c.now <= until && forall i :: 0 <= i < |c.pend| ==> c.pend[i].due.at > until
    ensures InOrder(c.(now := until)) && Idle(c.(now := until))
  {
  }

  lemma PlaceKeeps(s: seq<Due>, x: Due)
    requires Distinct(s) && !Linked(s, x.id)
    ensures Distinct(Place(s, x)) && |Place(s, x)| == |s| + 1 && forall d :: d in Place(s, x) <==> d in s || d == x
  {
  }

  lemma RemoveMember(s: seq<Due>, p: nat, d: Due)
    requires p < |s| && d in s && d != s[p]
    ensures d in RemoveAt(s, p)
  {
  }

  lemma DropKeeps(s: seq<Due>, id: nat, d: Due)
    requires Distinct(s) && d in s && d.id != id
    ensures Distinct(Drop(s, id)) && d in Drop(s, id)
  {
  }

  lemma DropMember(s: seq<Due>, id: nat, d: Due)
    requires d in Drop(s, id)
    ensures d in s
  {
  }

  lemma DropUnlinks(s: seq<Due>, id: nat)
    requires Distinct(s)
    ensures Distinct(Drop(s, id)) && !Linked(Drop(s, id), id)
  {
  }

  // ----- What arming and cancelling do -----

  /** When an accepted request is due: at the tick that it names, or some ticks from now; never at once. */
  function Wanted(now: int, timeout: int, lag: nat): int {
    if timeout < K_TICKS_FOREVER then (if -2 - timeout > now then -2 - timeout else now + 1) else now + timeout + 1 + lag
  }

  /**
   Arming an entry that is not linked adds its deadline and touches no other; one that is linked already, or that is never to
   expire, changes nothing.  Ticks that have elapsed count for relative requests, once the announcement is accounted for.
   */
  lemma ArmAnswer(now: int, s: seq<Due>, id: nat, timeout: int, hw: nat, remaining: nat)
    requires Distinct(s)
    ensures var r := ExecDues(now, s, Arm(id, timeout, hw), remaining);
      if timeout == K_TICKS_FOREVER || Linked(s, id) then r == s
      else
        && Distinct(r) && |r| == |s| + 1
        && forall d :: d in r <==> d in s || d == Due(id, Wanted(now, timeout, if remaining == 0 then hw else 0))
  {
    hide Linked, Distinct, Place;
    if timeout != K_TICKS_FOREVER && !Linked(s, id) {
      PlaceKeeps(s, Due(id, Wanted(now, timeout, if remaining == 0 then hw else 0)));
    }
  }

  /** Cancelling unlinks the entry and touches no other. */
  lemma CancelAnswer(now: int, s: seq<Due>, id: nat, remaining: nat)
    requires Distinct(s)
    ensures var r := ExecDues(now, s, Cancel(id), remaining);
      Distinct(r) && !Linked(r, id) && forall d :: d in r <==> d in s && d.id != id
  {
    DropUnlinks(s, id);
    var r := Drop(s, id);
    forall d ensures d in r <==> d in s && d.id != id {
      if d in s && d.id != id {
        DropKeeps(s, id, d);
      }
      if d in r {
        DropMember(s, id, d);
        var i :| 0 <= i < |r| && r[i] == d;
      }
    }
  }

  /**
   An announcement of n ticks moves the clock by exactly n; what it fires was due within those ticks; it leaves
   only deadlines beyond the new time; and whatever was due has expired exactly once, unless it was cancelled.
   */
  lemma {:induction false} AnnounceExact(c: Clock, ticks: nat, h: Handlers)
    requires Inv(c) && Idle(c) && Ordered(c)
    ensures var d := Announce(c, ticks, h);
            && Inv(d) && Idle(d) && d.now == c.now + ticks && c.fired <= d.fired
            && (forall i :: |c.fired| <= i < |d.fired| ==> c.now < d.fired[i].due.at <= d.now)
            && (forall x :: x in c.pend && x.due.at <= d.now ==> multiset(d.fired)[x] + multiset(d.cancelled)[x] == 1)
  {
    hide Expire, Sequenced, Ordered, Erase;
    var until := c.now + ticks;
    ExpireInv(c, until, h);
    ExpireBounds(c, until, h);
    ExpireLater(c, until, h);
    var d := Announce(c, ticks, h);
    AdvanceInOrder(Expire(c, until, h), until);
    forall x | x in c.pend && x.due.at <= d.now ensures multiset(d.fired)[x] + multiset(d.cancelled)[x] == 1 {
      assert x in multiset(c.pend) && x in multiset(c.armed);
      StampedOnce(d.armed, x);
      assert x in d.armed && x !in d.pend;
      assert multiset(d.armed)[x] == 1 && multiset(d.pend)[x] == 0;
    }
  }

  // ----- Runs -----

  datatype Event = Call(op: Op) | Tick(ticks: nat, h: Handlers)

  ghost function Step(c: Clock, e: Event): Clock
    requires Ordered(c)
  {
    match e
    case Call(op) => Exec(c, op, 0)
    case Tick(ticks, h) => Announce(c, ticks, h)
  }

  lemma AdvanceOrdered(c: Clock, until: int)
    requires Ordered(c) && forall i :: 0 <= i < |c.pend| ==> c.pend[i].due.at > until
    ensures Ordered(c.(now := until))
  {
  }

  lemma StepOrdered(c: Clock, e: Event)
    requires Ordered(c)
    ensures Ordered(Step(c, e))
  {
    match e
    case Call(op) => ExecOrdered(c, op, 0);
    case Tick(ticks, h) =>
      ExpireBounds(c, c.now + ticks, h);
      AdvanceOrdered(Expire(c, c.now + ticks, h), c.now + ticks);
  }

  ghost function Run(c: Clock, es: seq<Event>): Clock
    requires Ordered(c)
    decreases |es|
  {
    if es == [] then c else
      StepOrdered(c, es[0]);
      Run(Step(c, es[0]), es[1..])
  }

  lemma ExecIdle(c: Clock, op: Op)
    requires Idle(c)
    ensures Idle(Exec(c, op, 0))
  {
  }

  lemma {:induction false} StepInv(c: Clock, e: Event)
    requires Inv(c) && Idle(c) && Ordered(c)
    ensures Inv(Step(c, e)) && Idle(Step(c, e))
  {
    match e
    case Call(op) =>
      ExecInv(c, op, 0);
      ExecIdle(c, op);
    case Tick(ticks, h) => AnnounceExact(c, ticks, h);
  }

  /**
   Over every run from boot: expiry is in deadline order with first-armed-first ties, log and queue together; and
   each arming so far is exactly one of expired, cancelled or pending.
   */
  lemma {:induction false} RunInv(c: Clock, es: seq<Event>)
    requires Inv(c) && Idle(c) && Ordered(c)
    ensures Inv(Run(c, es)) && Idle(Run(c, es))
    decreases |es|
  {
    if es != [] {
      StepInv(c, es[0]);
      StepOrdered(c, es[0]);
      RunInv(Step(c, es[0]), es[1..]);
    }
  }

  lemma FromBoot(es: seq<Event>)
    ensures Ordered(BOOT) && Inv(Run(BOOT, es)) && Idle(Run(BOOT, es))
  {
    RunInv(BOOT, es);
  }

  lemma StepArmed(c: Clock, e: Event)
    requires Inv(c) && Ordered(c)
    ensures c.armed <= Step(c, e).armed
  {
    hide Inv, Ordered, Exec, Expire;
    match e
    case Call(op) => ExecInv(c, op, 0);
    case Tick(ticks, h) => ExpireInv(c, c.now + ticks, h);
  }

  lemma {:induction false} RunArmed(c: Clock, es: seq<Event>)
    requires Inv(c) && Idle(c) && Ordered(c)
    ensures c.armed <= Run(c, es).armed
    decreases |es|
  {
    hide Inv, Idle, Ordered, Step;
    if es != [] {
      StepArmed(c, es[0]);
      StepInv(c, es[0]);
      StepOrdered(c, es[0]);
      RunArmed(Step(c, es[0]), es[1..]);
    }
  }

  /** What has been armed and not been cancelled has expired if and only if its tick has come, and is pending otherwise. */
  lemma ExactlyThen(c: Clock, x: Inst)
    requires Inv(c) && Idle(c) && x in c.armed && x !in c.cancelled
    ensures x in c.fired <==> x.due.at <= c.now
    ensures x in c.pend <==> x.due.at > c.now
  {
    assert x in multiset(c.armed);
    assert x in multiset(c.fired) || x in multiset(c.pend);
    hide Distinct, Erase, Accounted, Stamped;
  }

  lemma ArmStamped(c: Clock, id: nat, timeout: int, hw: nat, remaining: nat)
    requires !Linked(Erase(c.pend), id) && timeout != K_TICKS_FOREVER
    ensures var x := Inst(Due(id, Wanted(c.now, timeout, if remaining == 0 then hw else 0)), |c.armed|);
      x in Exec(c, Arm(id, timeout, hw), remaining).armed
  {
    hide Linked, Erase, Pos;
  }

  /**
   An entry that is armed and not cancelled expires at exactly the tick asked for, over every run: it has expired if and only if
   that tick has been announced, and is pending until then.
   */
  lemma ArmedExpires(c: Clock, id: nat, timeout: int, hw: nat, es: seq<Event>)
    requires Inv(c) && Idle(c) && Ordered(c) && !Linked(Erase(c.pend), id) && timeout != K_TICKS_FOREVER
    ensures Ordered(Exec(c, Arm(id, timeout, hw), 0))
    ensures var u, x := Run(Exec(c, Arm(id, timeout, hw), 0), es), Inst(Due(id, Wanted(c.now, timeout, hw)), |c.armed|);
      x in u.armed && (x !in u.cancelled ==> (x in u.fired <==> x.due.at <= u.now) && (x in u.pend <==> x.due.at > u.now))
  {
    var a := Arm(id, timeout, hw);
    ArmStamped(c, id, timeout, hw, 0);
    StepInv(c, Call(a));
    StepOrdered(c, Call(a));
    hide Inv, Idle, Ordered, Exec, Run, Linked, Erase;
    var d := Exec(c, a, 0);
    RunArmed(d, es);
    RunInv(d, es);
    var u, x := Run(d, es), Inst(Due(id, Wanted(c.now, timeout, hw)), |c.armed|);
    if x !in u.cancelled {
      ExactlyThen(u, x);
    }
  }

  lemma {:induction false} ExecOne(c: Clock, op: Op, remaining: nat)
    ensures ExecAll(c, [op], remaining) == Exec(c, op, remaining)
  {
    assert [op][1..] == [];
  }

  lemma FireOneArms(c: Clock, until: int, h: Handlers, id: nat, timeout: int, hw: nat)
    requires c.pend != [] && c.pend[0].due.at <= until && h(|c.fired|, c.pend[0].due.id) == [Arm(id, timeout, hw)]
    requires timeout != K_TICKS_FOREVER && !Linked(Erase(c.pend[1..]), id)
    ensures var at := c.pend[0].due.at;
      Inst(Due(id, Wanted(at, timeout, if at == until then hw else 0)), |c.armed|) in FireOne(c, until, h).armed
  {
    var at, m := c.pend[0].due.at, FireHead(c);
    assert m.now == at && m.armed == c.armed && m.pend == c.pend[1..];
    hide Exec, Linked, Erase;
    ArmStamped(m, id, timeout, hw, until - at);
    ExecOne(m, Arm(id, timeout, hw), until - at);
  }

  /**
   What a handler does counts.  An entry that the first handler of an announcement arms is due from the tick at which that handler
   runs, and expires in the same announcement if and only if its tick is within it, unless it is cancelled.
   */
  lemma HandlerArms(c: Clock, ticks: nat, h: Handlers, id: nat, timeout: int, hw: nat)
    requires Inv(c) && Idle(c) && Ordered(c) && c.pend != [] && c.pend[0].due.at <= c.now + ticks
    requires h(|c.fired|, c.pend[0].due.id) == [Arm(id, timeout, hw)]
    requires timeout != K_TICKS_FOREVER && !Linked(Erase(c.pend[1..]), id)
    ensures var d, at, until := Announce(c, ticks, h), c.pend[0].due.at, c.now + ticks;
      var x := Inst(Due(id, Wanted(at, timeout, if at == until then hw else 0)), |c.armed|);
      x in d.armed && (x !in d.cancelled ==> (x in d.fired <==> x.due.at <= d.now))
  {
    hide Inv, Idle, Ordered, Linked, Erase, FireOne, Wanted;
    var at, until := c.pend[0].due.at, c.now + ticks;
    FireOneArms(c, until, h, id, timeout, hw);
    var u := FireOne(c, until, h);
    FireOneInv(c, until, h);
    FireOneProgress(c, until, h);
    AnnounceExact(c, ticks, h);
    assert Expire(c, until, h) == Expire(u, until, h);
    hide Expire;
    ExpireInv(u, until, h);
    var d, x := Announce(c, ticks, h), Inst(Due(id, Wanted(at, timeout, if at == until then hw else 0)), |c.armed|);
    if x !in d.cancelled {
      ExactlyThen(d, x);
    }
  }

  /** And an entry that a handler cancels is out of the queue, and the others are not touched. */
  lemma HandlerCancels(c: Clock, until: int, h: Handlers, id: nat)
    requires Inv(c) && c.pend != [] && c.pend[0].due.at <= until && h(|c.fired|, c.pend[0].due.id) == [Cancel(id)]
    ensures var s := Erase(FireOne(c, until, h).pend);
      !Linked(s, id) && forall d :: d in s <==> d in Erase(c.pend[1..]) && d.id != id
  {
    hide InOrder, Accounted, Stamped, Linked, Exec, ExecDues, Erase, Distinct;
    var m := FireHead(c);
    FireHeadInv(c);
    ExecOne(m, Cancel(id), until - c.pend[0].due.at);
    EraseExec(m, Cancel(id), until - c.pend[0].due.at);
    CancelAnswer(m.now, Erase(m.pend), id, until - c.pend[0].due.at);
  }
}
