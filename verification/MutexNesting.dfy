/**
 Threads that own several mutexes (kernel/mutex.c): exactly when the recorded priorities lead every thread to the priority that
 its mutexes call for.
 */
module MutexNesting {
  import opened Lists
  import opened MutexModel
  import opened MutexRuns
  import opened MutexInheritance

  // ----- Chains of recorded priorities -----

  /**
   The mutexes of `list`, oldest first, lead from priority `start` to priority `end`: each recorded what the one before it
   called for.
   */
  ghost predicate Chained(s: State, list: seq<nat>, start: int, end: int) {
    if list == [] then end == start
    else list[0] < |s.mutexes| && s.mutexes[list[0]].orig == start && Chained(s, list[1..], s.mutexes[list[0]].called, end)
  }

  ghost predicate ChainedAt(s: State, t: nat)
    requires t < |s.threads|
  {
    Chained(s, s.threads[t].owned, s.threads[t].base, s.threads[t].prio)
  }

  /** From the priority it was created with, a thread's mutexes lead to the priority it has. */
  ghost predicate Nested(s: State) { forall t: nat :: t < |s.threads| ==> ChainedAt(s, t) }

  /** No mutex calls for less than it recorded. */
  ghost predicate Raising(s: State) { forall m: nat :: m < |s.mutexes| && s.mutexes[m].owner.Some? ==> s.mutexes[m].called <= s.mutexes[m].orig }

  ghost predicate Regular(s: State) { Structure(s) && Unclamped(s) && Raising(s) }

  lemma StaysRaising(s: State, step: Step)
    requires Structure(s) && Unclamped(s) && Raising(s)
    ensures Raising(Next(s, step))
  {
    if Enabled(s, step) {
      match step
      case DoLock(t, m, noWait) =>
        if LockCode(s, t, m, noWait).None? {
          LockRaises(s, t, m);
          LockMutex(s, t, m);
          hide Lock, Structure;
        } else {
          hide Enter, Structure;
        }
      case DoUnlock(t, m) =>
        assert MutexOk(m, s.mutexes[m], s.threads);
        if UnlockCode(s, t, m) == 0 && s.mutexes[m].count == 1 {
          UnlockEffect(s, t, m);
          hide Unlock, Structure;
        } else {
          hide HandOff, Restore, Structure;
        }
      case DoTimeout(t) =>
        hide Structure, Removed;
      case DoAdjust(t) =>
        var m := s.threads[t].adjusts.value;
        AdjustEffect(s, t, m, s.mutexes[m].owner.value);
        DueUnclamped(s, m);
        hide Structure, Adjust, Due;
    }
  }

  lemma StaysRegular(s: State, step: Step)
    requires Regular(s)
    ensures Regular(Next(s, step))
  {
    hide Structure, Unclamped, Raising, Next;
    NextStructure(s, step);
    StaysUnclamped(s, step);
    StaysRaising(s, step);
  }

  lemma {:induction false} ChainedConcat(s: State, a: seq<nat>, b: seq<nat>, start: int, mid: int, end: int)
    requires Chained(s, a, start, mid)
    ensures Chained(s, a + b, start, end) <==> Chained(s, b, mid, end)
  {
    if a == [] {
      assert a + b == b;
    } else {
      assert (a + b)[1..] == a[1..] + b;
      ChainedConcat(s, a[1..], b, s.mutexes[a[0]].called, mid, end);
    }
  }

  lemma {:induction false} ChainedFront(s: State, a: seq<nat>, b: seq<nat>, start: int, end: int)
    requires Chained(s, a + b, start, end) && b != []
    ensures b[0] < |s.mutexes| && Chained(s, a, start, s.mutexes[b[0]].orig)
    ensures Chained(s, b, s.mutexes[b[0]].orig, end)
  {
    if a == [] {
      assert a + b == b;
    } else {
      assert (a + b)[1..] == a[1..] + b;
      ChainedFront(s, a[1..], b, s.mutexes[a[0]].called, end);
    }
  }

  /** A chain through `m`: up to what it recorded, and on from what it called for. */
  lemma ChainedThrough(s: State, a: seq<nat>, m: nat, b: seq<nat>, start: int, end: int)
    requires m < |s.mutexes|
    ensures Chained(s, a + [m] + b, start, end) <==>
      Chained(s, a, start, s.mutexes[m].orig) && Chained(s, b, s.mutexes[m].called, end)
  {
    assert a + [m] + b == a + ([m] + b) && ([m] + b)[1..] == b;
    if Chained(s, a, start, s.mutexes[m].orig) {
      ChainedConcat(s, a, [m] + b, start, s.mutexes[m].orig, end);
    }
    if Chained(s, a + ([m] + b), start, end) {
      ChainedFront(s, a, [m] + b, start, end);
    }
  }

  /** A chain determines where it starts, unless it is empty, and where it ends. */
  lemma {:induction false} ChainedOther(s: State, list: seq<nat>, start: int, end: int, start': int, end': int)
    requires Chained(s, list, start, end)
    ensures Chained(s, list, start', end') <==> if list == [] then end' == start' else start' == start && end' == end
  {
    if list != [] {
      var called := s.mutexes[list[0]].called;
      ChainedOther(s, list[1..], called, end, called, end');
    }
  }

  /** Only what the mutexes recorded and called for matters. */
  lemma {:induction false} ChainedSame(s: State, u: State, list: seq<nat>, start: int, end: int)
    requires |u.mutexes| == |s.mutexes|
    requires forall i :: 0 <= i < |list| && list[i] < |s.mutexes| ==>
      u.mutexes[list[i]].orig == s.mutexes[list[i]].orig && u.mutexes[list[i]].called == s.mutexes[list[i]].called
    ensures Chained(u, list, start, end) <==> Chained(s, list, start, end)
  {
    if list != [] && list[0] < |s.mutexes| {
      ChainedSame(s, u, list[1..], s.mutexes[list[0]].called, end);
    }
  }

  ghost predicate AllOwned(s: State, list: seq<nat>) {
    forall i :: 0 <= i < |list| ==> list[i] < |s.mutexes| && s.mutexes[list[i]].owner.Some?
  }

  /** Along a chain priorities only get better. */
  lemma {:induction false} ChainedDown(s: State, list: seq<nat>, start: int, end: int)
    requires Raising(s) && AllOwned(s, list) && Chained(s, list, start, end)
    ensures end <= start
    ensures forall i :: 0 <= i < |list| ==> end <= s.mutexes[list[i]].called
  {
    if list != [] {
      assert AllOwned(s, list[1..]);
      ChainedDown(s, list[1..], s.mutexes[list[0]].called, end);
    }
  }

  // ----- Newest mutexes -----

  predicate Newest(th: Thread, m: nat) { th.owned != [] && th.owned[|th.owned| - 1] == m }

  lemma OwnedIn(s: State, t: nat, m: nat)
    requires Structure(s) && t < |s.threads| && m < |s.mutexes|
    ensures m in s.threads[t].owned <==> Owns(s, t, m)
    ensures AllOwned(s, s.threads[t].owned)
  {
    hide Count;
    assert Holding(t, s.threads[t], m, s.mutexes[m]);
    CountIn(s.threads[t].owned, m);
    assert ThreadOk(s.threads[t], |s.mutexes|);
    var list: seq<nat> := s.threads[t].owned;
    forall i | 0 <= i < |list| ensures list[i] < |s.mutexes| && s.mutexes[list[i]].owner.Some? {
      var k: nat := list[i];
      assert k in list;
      CountIn(list, k);
      assert Holding(t, s.threads[t], k, s.mutexes[k]);
    }
  }

  lemma OwnsNothing(s: State, t: nat)
    requires Structure(s) && t < |s.threads| && forall k: nat :: !Owns(s, t, k)
    ensures s.threads[t].owned == []
  {
    if s.threads[t].owned != [] {
      var k := s.threads[t].owned[0];
      assert ThreadOk(s.threads[t], |s.mutexes|);
      OwnedIn(s, t, k);
      assert false;
    }
  }

  /** What lies before and behind one of a thread's mutexes. */
  /** Around the only occurrence. */
  lemma SplitOnce(list: seq<nat>, m: nat) returns (a: seq<nat>, b: seq<nat>)
    requires Count(list, m) == 1
    ensures list == a + [m] + b && m !in a && m !in b && Removed(list, m) == a + b
  {
    CountIn(list, m);
    var p := Find(list, m);
    a, b := list[..p], list[p + 1..];
    assert list == a + [m] + b && Removed(list, m) == a + b;
    hide Count, Find;
    CountAppend(a + [m], b, m);
    CountSnoc(a, m, m);
    CountIn(a, m);
    CountIn(b, m);
  }

  lemma OwnedOnce(s: State, t: nat, m: nat)
    requires Structure(s) && t < |s.threads| && Owns(s, t, m)
    ensures Count(s.threads[t].owned, m) == 1
  {
    OwnedIn(s, t, m);
    assert Holding(t, s.threads[t], m, s.mutexes[m]);
    hide Structure, Count;
  }

  lemma SplitAt(s: State, t: nat, m: nat) returns (a: seq<nat>, b: seq<nat>)
    requires Structure(s) && t < |s.threads| && Owns(s, t, m)
    ensures s.threads[t].owned == a + [m] + b && m !in a && m !in b
    ensures Removed(s.threads[t].owned, m) == a + b
    ensures Newest(s.threads[t], m) <==> b == []
  {
    hide Structure, Count, Removed;
    OwnedOnce(s, t, m);
    var list := s.threads[t].owned;
    a, b := SplitOnce(list, m);
    if b == [] {
      assert list == a + [m];
    } else {
      assert list[|list| - 1] == b[|b| - 1] && b[|b| - 1] in b;
    }
  }

  lemma RestSame(s: State, u: State, o: nat, m: nat, list: seq<nat>, start: int, end: int)
    requires Touches(s, u, o, m) && m !in list
    ensures Chained(u, list, start, end) <==> Chained(s, list, start, end)
  {
    forall i | 0 <= i < |list| && list[i] < |s.mutexes| ensures u.mutexes[list[i]] == s.mutexes[list[i]] {
      assert list[i] in list;
    }
    ChainedSame(s, u, list, start, end);
  }

  /** Everybody else's chain stays. */
  lemma OthersChained(s: State, u: State, o: nat, m: nat, x: nat)
    requires Structure(s) && Nested(s) && Owns(s, o, m) && Touches(s, u, o, m) && x < |s.threads| && x != o
    requires u.threads[x].owned == s.threads[x].owned
    ensures ChainedAt(u, x)
  {
    OwnedIn(s, x, m);
    hide Structure;
    assert ChainedAt(s, x);
    RestSame(s, u, o, m, s.threads[x].owned, s.threads[x].base, s.threads[x].prio);
  }

  /**
   When only what `m` calls for and its owner's priority change: the owner's chain stays exactly if, for its newest mutex, the
   two agree, and, for an older one, neither has changed.
   */
  lemma OwnerChained(s: State, u: State, o: nat, m: nat)
    requires Structure(s) && Nested(s) && o < |s.threads| && Owns(s, o, m) && Touches(s, u, o, m)
    requires u.threads[o].owned == s.threads[o].owned && u.mutexes[m].orig == s.mutexes[m].orig
    ensures ChainedAt(u, o) <==>
      if Newest(s.threads[o], m) then u.threads[o].prio == u.mutexes[m].called
      else u.mutexes[m].called == s.mutexes[m].called && u.threads[o].prio == s.threads[o].prio
  {
    var th, called, prio := s.threads[o], u.mutexes[m].called, u.threads[o].prio;
    var a, b := SplitAt(s, o, m);
    assert ChainedAt(s, o) && u.threads[o].base == th.base;
    hide Structure, Nested, Chained;
    RestSame(s, u, o, m, a, th.base, s.mutexes[m].orig);
    RestSame(s, u, o, m, b, called, prio);
    ChainedThrough(s, a, m, b, th.base, th.prio);
    ChainedThrough(u, a, m, b, th.base, prio);
    ChainedOther(s, b, s.mutexes[m].called, th.prio, called, prio);
  }

  lemma NestedParts(s: State, u: State, o: nat, m: nat)
    requires Structure(s) && Nested(s) && o < |s.threads| && Owns(s, o, m) && Touches(s, u, o, m) && SameOwned(s, u)
    ensures Nested(u) <==> ChainedAt(u, o)
  {
    forall x: nat | x < |s.threads| && x != o ensures ChainedAt(u, x) {
      OthersChained(s, u, o, m, x);
    }
    hide Structure, ChainedAt;
  }

  // ----- The exact condition -----

  /**
   What keeps the chains: waiting for an older mutex of its owner only at a priority that the mutex has called for already,
   unlocking or readjusting an older one only without a change of priority.  Nothing is asked about a thread's newest mutex.
   */
  ghost predicate Follows(s: State, step: Step)
    requires Enabled(s, step)
  {
    match step
    case DoLock(t, m, noWait) =>
      LockCode(s, t, m, noWait).None? && s.mutexes[m].owner.Some? && s.mutexes[m].owner.value < |s.threads| ==>
        Newest(s.threads[s.mutexes[m].owner.value], m) || s.threads[t].prio >= s.mutexes[m].called
    case DoUnlock(t, m) =>
      UnlockCode(s, t, m) == 0 && s.mutexes[m].count == 1 ==>
        Newest(s.threads[t], m) || s.threads[t].prio == s.mutexes[m].orig
    case DoTimeout(t) => true
    case DoAdjust(t) =>
      var m := s.threads[t].adjusts.value;
      s.mutexes[m].owner.value < |s.threads| ==>
        var o := s.mutexes[m].owner.value;
        Newest(s.threads[o], m) || Due(s, m) == s.mutexes[m].called == s.threads[o].prio
  }

  lemma OwnerCalled(s: State, o: nat, m: nat)
    requires Regular(s) && Nested(s) && o < |s.threads| && Owns(s, o, m)
    ensures s.threads[o].prio <= s.mutexes[m].called
    ensures Newest(s.threads[o], m) ==> s.threads[o].prio == s.mutexes[m].called
  {
    OwnedIn(s, o, m);
    var th := s.threads[o];
    var a, b := SplitAt(s, o, m);
    assert ChainedAt(s, o);
    hide Structure, Unclamped, Nested;
    ChainedDown(s, th.owned, th.base, th.prio);
    ChainedThrough(s, a, m, b, th.base, th.prio);
    var i :| 0 <= i < |th.owned| && th.owned[i] == m;
  }

  lemma LockNested(s: State, t: nat, m: nat, noWait: bool)
    requires Regular(s) && Nested(s) && Enabled(s, DoLock(t, m, noWait)) && LockCode(s, t, m, noWait).None?
    ensures Nested(Lock(s, t, m, noWait)) <==> Follows(s, DoLock(t, m, noWait))
  {
    LockRaises(s, t, m);
    LockMutex(s, t, m);
    var o, u := s.mutexes[m].owner.value, Lock(s, t, m, noWait);
    hide Lock, Nested, Structure, Unclamped, Raising;
    OwnerCalled(s, o, m);
    OwnerChained(s, u, o, m);
    NestedParts(s, u, o, m);
  }

  /** A granted lock puts a new link at the end of the chain, or changes none. */
  lemma TakeNested(s: State, t: nat, m: nat)
    requires Structure(s) && Nested(s) && Enabled(s, DoLock(t, m, false)) && Grants(s.mutexes[m], t)
    ensures Nested(Take(s, t, m))
  {
    assert MutexOk(m, s.mutexes[m], s.threads);
    var u := Take(s, t, m);
    forall x: nat | x < |u.threads| ensures ChainedAt(u, x) {
      var th := s.threads[x];
      OwnedIn(s, x, m);
      assert ChainedAt(s, x);
      forall i | 0 <= i < |th.owned| && th.owned[i] < |s.mutexes|
        ensures u.mutexes[th.owned[i]].orig == s.mutexes[th.owned[i]].orig
          && u.mutexes[th.owned[i]].called == s.mutexes[th.owned[i]].called
      {
        assert th.owned[i] in th.owned;
      }
      ChainedSame(s, u, th.owned, th.base, th.prio);
      if x == t && s.mutexes[m].count == 0 {
        ChainedConcat(u, th.owned, [m], th.base, th.prio, th.prio);
        assert [m][1..] == [];
      }
    }
  }

  lemma OwnedBehind(s: State, a: seq<nat>, b: seq<nat>)
    requires AllOwned(s, a + b)
    ensures AllOwned(s, b)
  {
    forall i | 0 <= i < |b| ensures b[i] < |s.mutexes| && s.mutexes[b[i]].owner.Some? {
      assert b[i] == (a + b)[|a| + i];
    }
  }

  /** Giving back the newest mutex, or one that has not raised the thread, takes its link out of the chain. */
  lemma RestoredChained(s: State, u: State, t: nat, m: nat)
    requires Regular(s) && Nested(s) && t < |s.threads| && Owns(s, t, m) && Touches(s, u, t, m)
    requires u.threads[t].owned == Removed(s.threads[t].owned, m) && u.threads[t].prio == s.mutexes[m].orig
    ensures ChainedAt(u, t) <==> Newest(s.threads[t], m) || s.threads[t].prio == s.mutexes[m].orig
  {
    hide Removed, Count, Find;
    var th, orig, called := s.threads[t], s.mutexes[m].orig, s.mutexes[m].called;
    var a, b := SplitAt(s, t, m);
    OwnedIn(s, t, m);
    OwnedBehind(s, a + [m], b);
    assert ChainedAt(s, t) && called <= orig && u.threads[t].base == th.base;
    hide Nested, Chained, Structure, Unclamped;
    ChainedThrough(s, a, m, b, th.base, th.prio);
    RestSame(s, u, t, m, a, th.base, orig);
    RestSame(s, u, t, m, b, orig, orig);
    ChainedConcat(u, a, b, th.base, orig, orig);
    ChainedOther(s, b, called, th.prio, orig, orig);
    ChainedDown(s, b, called, th.prio);
  }

  /** The new owner gets a new link at the end of its chain. */
  lemma HandedOverChained(s: State, u: State, t: nat, m: nat, n: nat)
    requires Structure(s) && Nested(s) && Owns(s, t, m) && n < |s.threads| && n != t && Touches(s, u, t, m)
    requires u.threads[n].owned == s.threads[n].owned + [m]
    requires u.mutexes[m].orig == u.mutexes[m].called == s.threads[n].prio
    ensures ChainedAt(u, n)
  {
    var th := s.threads[n];
    OwnedIn(s, n, m);
    assert ChainedAt(s, n);
    hide Structure, Nested;
    RestSame(s, u, t, m, th.owned, th.base, th.prio);
    ChainedConcat(u, th.owned, [m], th.base, th.prio, th.prio);
    assert [m][1..] == [];
  }

  lemma UnlockNested(s: State, t: nat, m: nat)
    requires Regular(s) && Nested(s) && Enabled(s, DoUnlock(t, m)) && UnlockCode(s, t, m) == 0 && s.mutexes[m].count == 1
    ensures Nested(Unlock(s, t, m)) <==> Follows(s, DoUnlock(t, m))
  {
    UnlockEffect(s, t, m);
    var u, list := Unlock(s, t, m), s.mutexes[m].waiters;
    hide Unlock, Removed, Structure, Unclamped, Raising;
    RestoredChained(s, u, t, m);
    if list != [] {
      HandedOverChained(s, u, t, m, list[0]);
    }
    forall x: nat | x < |s.threads| && x != t ensures ChainedAt(u, x) {
      if list == [] || x != list[0] {
        OthersChained(s, u, t, m, x);
      }
    }
    hide ChainedAt;
  }

  lemma AdjustNested(s: State, t: nat)
    requires Regular(s) && Nested(s) && Enabled(s, DoAdjust(t))
    ensures Nested(Next(s, DoAdjust(t))) <==> Follows(s, DoAdjust(t))
  {
    var m := s.threads[t].adjusts.value;
    var o := s.mutexes[m].owner.value;
    AdjustEffect(s, t, m, o);
    var u := Adjust(s, t, m, o);
    hide Adjust, Due, Nested, Structure, Unclamped, Raising;
    OwnerCalled(s, o, m);
    OwnerChained(s, u, o, m);
    NestedParts(s, u, o, m);
  }

  lemma SameChains(s: State, u: State)
    requires Nested(s) && |u.threads| == |s.threads| && |u.mutexes| == |s.mutexes|
    requires forall x: nat :: x < |s.threads| ==>
      u.threads[x].owned == s.threads[x].owned && u.threads[x].prio == s.threads[x].prio && u.threads[x].base == s.threads[x].base
    requires forall k: nat :: k < |s.mutexes| ==> u.mutexes[k].orig == s.mutexes[k].orig && u.mutexes[k].called == s.mutexes[k].called
    ensures Nested(u)
  {
    forall x: nat | x < |u.threads| ensures ChainedAt(u, x) {
      assert ChainedAt(s, x);
      ChainedSame(s, u, s.threads[x].owned, s.threads[x].base, s.threads[x].prio);
    }
  }

  lemma OtherNested(s: State, step: Step)
    requires Structure(s) && Nested(s) && Enabled(s, step) && !step.DoAdjust?
    requires step.DoLock? ==> Grants(s.mutexes[step.m], step.t) || step.noWait
    requires step.DoUnlock? ==> !(UnlockCode(s, step.t, step.m) == 0 && s.mutexes[step.m].count == 1)
    ensures Nested(Next(s, step))
  {
    hide Nested;
    match step
    case DoLock(t, m, noWait) =>
      if Grants(s.mutexes[m], t) {
        hide Take;
        TakeNested(s, t, m);
      }
    case DoUnlock(t, m) =>
      assert MutexOk(m, s.mutexes[m], s.threads);
      hide Structure, HandOff, Restore;
      SameChains(s, Unlock(s, t, m));
    case DoTimeout(t) =>
      hide Structure, Removed;
      SameChains(s, Next(s, step));
  }

  /** From a state in which the chains are right, a step keeps them right if and only if it follows the condition. */
  lemma StaysNested(s: State, step: Step)
    requires Regular(s) && Nested(s) && Enabled(s, step)
    ensures Nested(Next(s, step)) <==> Follows(s, step)
  {
    hide Structure, Unclamped, Raising, Nested, Lock, Unlock, Timeout, Adjust;
    match step
    case DoLock(t, m, noWait) =>
      if LockCode(s, t, m, noWait).None? {
        LockNested(s, t, m, noWait);
      } else {
        OtherNested(s, step);
      }
    case DoUnlock(t, m) =>
      if UnlockCode(s, t, m) == 0 && s.mutexes[m].count == 1 {
        UnlockNested(s, t, m);
      } else {
        OtherNested(s, step);
      }
    case DoTimeout(t) => OtherNested(s, step);
    case DoAdjust(t) => AdjustNested(s, t);
  }

  // ----- What right chains mean -----

  /** Where a chain leads is where it starts, or what one of its mutexes called for. */
  lemma {:induction false} ChainedAttained(s: State, list: seq<nat>, start: int, end: int)
    requires Chained(s, list, start, end)
    ensures end == start || exists i :: 0 <= i < |list| && list[i] < |s.mutexes| && end == s.mutexes[list[i]].called
  {
    if list != [] {
      var m, rest := list[0], list[1..];
      ChainedAttained(s, rest, s.mutexes[m].called, end);
      if end != s.mutexes[m].called {
        var i :| 0 <= i < |rest| && rest[i] < |s.mutexes| && end == s.mutexes[rest[i]].called;
        assert list[i + 1] == rest[i];
      }
    }
  }

  /**
   With right chains every thread has the best of the priority it was created with and what any of its mutexes called for; so a
   thread without a mutex has the priority it was created with.
   */
  lemma NestedPrio(s: State, t: nat)
    requires Regular(s) && Nested(s) && t < |s.threads|
    ensures s.threads[t].prio <= s.threads[t].base
    ensures forall m: nat :: Owns(s, t, m) ==> s.threads[t].prio <= s.mutexes[m].called
    ensures s.threads[t].prio == s.threads[t].base || exists m: nat :: Owns(s, t, m) && s.threads[t].prio == s.mutexes[m].called
  {
    var th := s.threads[t];
    assert ChainedAt(s, t);
    if th.owned != [] {
      assert ThreadOk(th, |s.mutexes|);
      OwnedIn(s, t, th.owned[0]);
    }
    ChainedDown(s, th.owned, th.base, th.prio);
    ChainedAttained(s, th.owned, th.base, th.prio);
    if th.prio != th.base {
      var i :| 0 <= i < |th.owned| && th.owned[i] < |s.mutexes| && th.prio == s.mutexes[th.owned[i]].called;
      assert th.owned[i] in th.owned;
      OwnedIn(s, t, th.owned[i]);
    }
    hide Structure, Unclamped, Chained;
    forall m: nat | Owns(s, t, m) ensures th.prio <= s.mutexes[m].called {
      OwnerCalled(s, t, m);
    }
  }

  // ----- Runs -----

  ghost predicate AlwaysNested(s: State, steps: seq<Step>)
    decreases |steps|
  {
    Nested(s) && (steps == [] || AlwaysNested(Next(s, steps[0]), steps[1..]))
  }

  ghost predicate AllFollow(s: State, steps: seq<Step>)
    decreases |steps|
  {
    steps == [] || ((Enabled(s, steps[0]) ==> Follows(s, steps[0])) && AllFollow(Next(s, steps[0]), steps[1..]))
  }

  /** The chains are right at every moment of a run if and only if every step of it follows the condition. */
  lemma {:induction false} NestedRun(s: State, steps: seq<Step>)
    requires Regular(s) && Nested(s)
    ensures AlwaysNested(s, steps) <==> AllFollow(s, steps)
    ensures AllFollow(s, steps) ==> Regular(Run(s, steps)) && Nested(Run(s, steps))
    decreases |steps|
  {
    hide Regular, Nested, Follows;
    if steps != [] {
      StaysRegular(s, steps[0]);
      if Enabled(s, steps[0]) {
        StaysNested(s, steps[0]);
      }
      hide Next, Enabled;
      if Nested(Next(s, steps[0])) {
        NestedRun(Next(s, steps[0]), steps[1..]);
      }
    }
  }

  lemma InitialNested(s: State)
    requires Initial(s) && forall t :: 0 <= t < |s.threads| ==> s.threads[t].base >= s.ceiling
    ensures Regular(s) && Nested(s)
  {
    InitialStructure(s);
    hide Structure;
  }
}
