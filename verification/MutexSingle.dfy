/**
 Mutexes of threads that do not wait while they own one (kernel/mutex.c): wait queues stay sorted, mutexes have called for what
 their waiters call for, and with one mutex at a time priority inheritance is exact.
 */
module MutexSingle {
  import opened Lists
  import opened MutexModel
  import opened MutexRuns
  import opened MutexInheritance
  import opened MutexNesting

  // ----- States -----

  ghost predicate SortedList(threads: seq<Thread>, list: seq<nat>) {
    forall i, j :: 0 <= i < j < |list| ==> Prio(threads, list[i]) <= Prio(threads, list[j])
  }

  /** Nobody has still to readjust the owner of this mutex. */
  ghost predicate Quiet(s: State, m: nat) { forall t: nat :: t < |s.threads| ==> s.threads[t].adjusts != Some(m) }

  /** A mutex has called for no less than its waiters do, and for no more unless somebody has still to readjust its owner. */
  ghost predicate InStep(s: State, m: nat)
    requires m < |s.mutexes|
  {
    s.mutexes[m].owner.Some? ==> s.mutexes[m].called <= Due(s, m) && (Quiet(s, m) ==> s.mutexes[m].called == Due(s, m))
  }

  ghost predicate Orderly(s: State) {
    forall m: nat :: m < |s.mutexes| ==> SortedList(s.threads, s.mutexes[m].waiters) && InStep(s, m)
  }

  /** A thread that waits owns nothing. */
  ghost predicate WaitersOwnNone(s: State) {
    forall t: nat, m: nat :: t < |s.threads| && s.threads[t].waits.Some? ==> !Owns(s, t, m)
  }

  ghost predicate Sound(s: State) { Regular(s) && Orderly(s) && WaitersOwnNone(s) }

  /** What is asked of callers: a thread does not wait while it owns a mutex. */
  ghost predicate Rule(s: State, step: Step) {
    step.DoLock? && step.m < |s.mutexes| && LockCode(s, step.t, step.m, step.noWait).None? ==>
      forall k: nat :: !Owns(s, step.t, k)
  }

  // ----- Who owns and who waits -----

  /** Who owns what after a step: the same, except that a granted lock or a hand-off gives the mutex away. */
  lemma OwnersAfter(s: State, step: Step, x: nat, k: nat)
    requires Structure(s) && Enabled(s, step) && Owns(Next(s, step), x, k)
    ensures
      || Owns(s, x, k)
      || (step.DoLock? && x == step.t && k == step.m && s.mutexes[k].count == 0)
      || (step.DoUnlock? && k == step.m && UnlockCode(s, step.t, k) == 0 && s.mutexes[k].waiters != [] && x == s.mutexes[k].waiters[0])
  {
    hide Structure, Rank, Removed, Prio, Due, Inherited;
  }

  /** Who waits after a step: the same, except that a thread that must wait does. */
  lemma WaitersAfter(s: State, step: Step, x: nat)
    requires Structure(s) && Enabled(s, step)
    requires x < |Next(s, step).threads| && Next(s, step).threads[x].waits.Some?
    ensures x < |s.threads|
    ensures s.threads[x].waits.Some? || (step.DoLock? && x == step.t && LockCode(s, x, step.m, step.noWait).None?)
    ensures step.DoUnlock? && UnlockCode(s, step.t, step.m) == 0 && s.mutexes[step.m].count <= 1 && s.mutexes[step.m].waiters != [] ==>
      x != s.mutexes[step.m].waiters[0]
  {
    if step.DoUnlock? && s.mutexes[step.m].waiters != [] {
      HeadWaits(s, step.m);
    }
    hide Structure, Rank, Removed, Prio, Due, Inherited;
  }

  lemma StaysOwnNone(s: State, step: Step)
    requires Structure(s) && WaitersOwnNone(s) && Rule(s, step)
    ensures WaitersOwnNone(Next(s, step))
  {
    var u := Next(s, step);
    if Enabled(s, step) {
      hide Next, Structure;
      forall x: nat, k: nat | x < |u.threads| && u.threads[x].waits.Some? ensures !Owns(u, x, k) {
        WaitersAfter(s, step, x);
        if Owns(u, x, k) {
          OwnersAfter(s, step, x, k);
        }
      }
    }
  }

  // ----- Wait queues -----

  ghost predicate SamePrios(a: seq<Thread>, b: seq<Thread>, list: seq<nat>) {
    forall i :: 0 <= i < |list| ==> Prio(b, list[i]) == Prio(a, list[i])
  }

  /** No owner is among the waiters of any mutex. */
  lemma OwnerNotWaiting(s: State, o: nat, m: nat, k: nat)
    requires Structure(s) && WaitersOwnNone(s) && Owns(s, o, m) && k < |s.mutexes|
    ensures o < |s.threads| && o !in s.mutexes[k].waiters
  {
    hide Count;
    assert MutexOk(m, s.mutexes[m], s.threads);
    assert Waiting(o, s.threads[o], k, s.mutexes[k]);
    CountIn(s.mutexes[k].waiters, o);
  }

  lemma NotTouched(s: State, threads: seq<Thread>, o: nat, list: seq<nat>)
    requires |threads| == |s.threads| && forall x: nat :: x < |s.threads| && x != o ==> threads[x].prio == s.threads[x].prio
    requires o !in list
    ensures SamePrios(s.threads, threads, list)
  {
    forall i | 0 <= i < |list| ensures Prio(threads, list[i]) == Prio(s.threads, list[i]) {
      assert list[i] in list;
    }
  }

  /** The order and the call of a mutex that a step does not touch. */
  lemma Elsewhere(s: State, u: State, o: nat, m: nat, k: nat)
    requires Structure(s) && WaitersOwnNone(s) && Orderly(s) && Owns(s, o, m) && Touches(s, u, o, m) && k < |s.mutexes| && k != m
    requires Quiet(u, k) ==> Quiet(s, k)
    ensures SortedList(u.threads, u.mutexes[k].waiters) && InStep(u, k)
  {
    OwnerNotWaiting(s, o, m, k);
    hide Structure, WaitersOwnNone;
    NotTouched(s, u.threads, o, s.mutexes[k].waiters);
    assert SortedList(s.threads, s.mutexes[k].waiters) && InStep(s, k);
    hide Quiet;
    assert Due(u, k) == Due(s, k);
  }

  lemma QuietSame(s: State, u: State, k: nat)
    requires |u.threads| == |s.threads| && forall x: nat :: x < |s.threads| ==> u.threads[x].adjusts == s.threads[x].adjusts
    ensures Quiet(u, k) <==> Quiet(s, k)
  {
    if Quiet(s, k) {
      forall t: nat | t < |u.threads| ensures u.threads[t].adjusts != Some(k) {
      }
    }
    if Quiet(u, k) {
      forall t: nat | t < |s.threads| ensures s.threads[t].adjusts != Some(k) {
        assert u.threads[t].adjusts != Some(k);
      }
    }
  }

  lemma InsertSorted(threads: seq<Thread>, list: seq<nat>, t: nat)
    requires SortedList(threads, list)
    ensures SortedList(threads, InsertAt(list, Rank(Prios(threads, list), Prio(threads, t)), t))
  {
    hide Rank, InsertAt;
    var p := Rank(Prios(threads, list), Prio(threads, t));
    var r := InsertAt(list, p, t);
    forall i, j | 0 <= i < j < |r| ensures Prio(threads, r[i]) <= Prio(threads, r[j]) {
      assert i != p ==> r[i] == list[if i < p then i else i - 1];
      assert j != p ==> r[j] == list[if j < p then j else j - 1];
    }
  }

  lemma SortedSame(a: seq<Thread>, b: seq<Thread>, list: seq<nat>)
    requires SamePrios(a, b, list)
    ensures SortedList(a, list) <==> SortedList(b, list)
  {
  }

  lemma LockSorted(s: State, t: nat, m: nat)
    requires Sound(s) && Enabled(s, DoLock(t, m, false)) && !Grants(s.mutexes[m], t)
    ensures var u := Lock(s, t, m, false); m < |u.mutexes| && SortedList(u.threads, u.mutexes[m].waiters)
  {
    LockRaises(s, t, m);
    var o, r, list := s.mutexes[m].owner.value, Raise(s, t, m), s.mutexes[m].waiters;
    WaitsElsewhere(s, o, m);
    assert SortedList(s.threads, list);
    hide Structure, Unclamped, Raising, Orderly, WaitersOwnNone, Rank, InsertAt;
    NotTouched(s, r.threads, o, list);
    SortedSame(s.threads, r.threads, list);
    InsertSorted(r.threads, list, t);
    var u := Lock(s, t, m, false);
    SortedSame(r.threads, u.threads, u.mutexes[m].waiters);
  }

  lemma LockAdjusts(s: State, t: nat, m: nat)
    requires Enabled(s, DoLock(t, m, false))
    ensures var u := Lock(s, t, m, false);
      |u.threads| == |s.threads| && forall x: nat :: x < |s.threads| ==> u.threads[x].adjusts == s.threads[x].adjusts
  {
    hide Rank, InsertAt;
  }

  lemma LockInStep(s: State, t: nat, m: nat)
    requires Sound(s) && Enabled(s, DoLock(t, m, false)) && !Grants(s.mutexes[m], t)
    ensures var u := Lock(s, t, m, false); m < |u.mutexes| && InStep(u, m)
  {
    LockRaises(s, t, m);
    LockMutex(s, t, m);
    LockAdjusts(s, t, m);
    var o, u, list := s.mutexes[m].owner.value, Lock(s, t, m, false), s.mutexes[m].waiters;
    WaitsElsewhere(s, o, m);
    assert InStep(s, m) && u.mutexes[m].waiters[0] != o;
    DueUnclamped(s, m);
    QuietSame(s, u, m);
    assert s.threads[t].prio >= s.ceiling && s.mutexes[m].orig >= s.ceiling;
    assert Prio(u.threads, u.mutexes[m].waiters[0]) == Prio(s.threads, u.mutexes[m].waiters[0]);
    assert list != [] ==> Prio(s.threads, list[0]) >= s.ceiling by {
      if list != [] {
        HeadWaits(s, m);
      }
    }
    hide Structure, Unclamped, Raising, Orderly, WaitersOwnNone, Lock, Quiet;
    assert Due(u, m) == Better(s.threads[t].prio, Due(s, m));
  }

  lemma Parts(s: State)
    requires Sound(s)
    ensures Structure(s) && Unclamped(s) && Raising(s) && Orderly(s) && WaitersOwnNone(s)
  {
  }

  /** A step that touches `o` and `m` and leaves no other mutex quiet that was not is orderly if it is so at `m`. */
  lemma Gather(s: State, u: State, o: nat, m: nat)
    requires Structure(s) && WaitersOwnNone(s) && Orderly(s) && Owns(s, o, m) && Touches(s, u, o, m)
    requires forall x: nat :: x < |s.threads| ==> u.threads[x].adjusts == s.threads[x].adjusts || s.threads[x].adjusts == Some(m)
    requires SortedList(u.threads, u.mutexes[m].waiters) && InStep(u, m)
    ensures Orderly(u)
  {
    hide Structure, SortedList, InStep;
    forall k: nat | k < |u.mutexes| ensures SortedList(u.threads, u.mutexes[k].waiters) && InStep(u, k) {
      if k != m {
        assert Quiet(u, k) ==> Quiet(s, k) by {
          forall x: nat | Quiet(u, k) && x < |s.threads| ensures s.threads[x].adjusts != Some(k) {
            assert u.threads[x].adjusts != Some(k);
          }
        }
        Elsewhere(s, u, o, m, k);
      }
    }
  }

  lemma LockOrderly(s: State, t: nat, m: nat, noWait: bool)
    requires Sound(s) && Enabled(s, DoLock(t, m, noWait)) && LockCode(s, t, m, noWait).None?
    ensures Orderly(Lock(s, t, m, noWait))
  {
    hide Regular, Orderly, WaitersOwnNone, Lock, SortedList, InStep, Quiet, Touches;
    Parts(s);
    LockRaises(s, t, m);
    LockAdjusts(s, t, m);
    LockSorted(s, t, m);
    LockInStep(s, t, m);
    var o, u := s.mutexes[m].owner.value, Lock(s, t, m, noWait);
    Gather(s, u, o, m);
  }

  lemma RestSorted(threads: seq<Thread>, list: seq<nat>)
    requires SortedList(threads, list) && list != []
    ensures SortedList(threads, list[1..]) && forall i :: 0 <= i < |list| ==> Prio(threads, list[0]) <= Prio(threads, list[i])
  {
  }

  /**
   The last unlock gives the owner its recorded priority back and hands the mutex to the first waiter, which is the best one,
   holds it once, and needs no raising.
   */
  lemma LastUnlock(s: State, t: nat, m: nat)
    requires Sound(s) && Enabled(s, DoUnlock(t, m)) && UnlockCode(s, t, m) == 0 && s.mutexes[m].count == 1
    ensures var u := Unlock(s, t, m);
      var list := s.mutexes[m].waiters;
      && u.threads[t].prio == s.mutexes[m].orig
      && (list == [] ==> u.mutexes[m].owner == None && u.mutexes[m].count == 0)
      && (list != [] ==>
            && list[0] < |s.threads| && u.mutexes[m].owner == Some(list[0]) && u.mutexes[m].count == 1
            && u.threads[list[0]].waits.None? && u.threads[list[0]].prio == s.threads[list[0]].prio
            && u.threads[list[0]].prio == Due(u, m)
            && (forall i :: 0 <= i < |list| ==> Prio(s.threads, list[0]) <= Prio(s.threads, list[i])))
  {
    UnlockEffect(s, t, m);
    var u, list := Unlock(s, t, m), s.mutexes[m].waiters;
    assert SortedList(s.threads, list) && MutexOk(m, s.mutexes[m], s.threads);
    WaitsElsewhere(s, t, m);
    if list != [] {
      RestSorted(s.threads, list);
      assert s.threads[list[0]].prio >= s.ceiling;
      NotTouched(s, u.threads, t, list);
    }
    hide Structure, Unclamped, Raising, Orderly, WaitersOwnNone, Unlock, Removed;
  }

  lemma UnlockAdjusts(s: State, t: nat, m: nat)
    requires Enabled(s, DoUnlock(t, m))
    ensures var u := Unlock(s, t, m);
      |u.threads| == |s.threads| && forall x: nat :: x < |s.threads| ==> u.threads[x].adjusts == s.threads[x].adjusts
  {
    hide Removed;
  }

  lemma UnlockOrderly(s: State, t: nat, m: nat)
    requires Sound(s) && Enabled(s, DoUnlock(t, m)) && UnlockCode(s, t, m) == 0 && s.mutexes[m].count == 1
    ensures Orderly(Unlock(s, t, m))
  {
    UnlockEffect(s, t, m);
    LastUnlock(s, t, m);
    UnlockAdjusts(s, t, m);
    Parts(s);
    var u, list := Unlock(s, t, m), s.mutexes[m].waiters;
    assert SortedList(s.threads, list);
    WaitsElsewhere(s, t, m);
    hide Structure, Unclamped, Raising, Orderly, WaitersOwnNone, Unlock, Removed, Quiet;
    if list != [] {
      RestSorted(s.threads, list);
      NotTouched(s, u.threads, t, list);
      SortedSame(s.threads, u.threads, list[1..]);
    }
    Gather(s, u, t, m);
  }

  lemma AdjustOrderly(s: State, t: nat)
    requires Sound(s) && Enabled(s, DoAdjust(t))
    ensures Orderly(Next(s, DoAdjust(t)))
  {
    Parts(s);
    var m := s.threads[t].adjusts.value;
    var o := s.mutexes[m].owner.value;
    var u := Adjust(s, t, m, o);
    AdjustEffect(s, t, m, o);
    AdjustDue(s, t, m, o);
    WaitsElsewhere(s, o, m);
    assert SortedList(s.threads, s.mutexes[m].waiters);
    assert forall x: nat :: x < |s.threads| && x != t ==> u.threads[x].adjusts == s.threads[x].adjusts;
    hide Structure, Unclamped, Raising, Orderly, WaitersOwnNone, Adjust, Due, Quiet;
    NotTouched(s, u.threads, o, s.mutexes[m].waiters);
    SortedSame(s.threads, u.threads, s.mutexes[m].waiters);
    Gather(s, u, o, m);
  }

  lemma RemovedSorted(threads: seq<Thread>, list: seq<nat>, t: nat)
    requires SortedList(threads, list)
    ensures SortedList(threads, Removed(list, t))
    ensures Removed(list, t) != [] ==> list != [] && Prio(threads, list[0]) <= Prio(threads, Removed(list, t)[0])
  {
  }

  lemma TimeoutLoud(s: State, t: nat, m: nat)
    requires m < |s.mutexes| && t < |s.threads|
    ensures !Quiet(Timeout(s, t, m), m)
  {
    hide Removed;
    assert Timeout(s, t, m).threads[t].adjusts == Some(m);
  }

  lemma TimeoutHere(s: State, t: nat, m: nat)
    requires Orderly(s) && m < |s.mutexes| && t < |s.threads| && Unclamped(s)
    ensures var u := Timeout(s, t, m); SortedList(u.threads, u.mutexes[m].waiters) && InStep(u, m)
  {
    var u, list := Timeout(s, t, m), s.mutexes[m].waiters;
    assert SortedList(s.threads, list) && InStep(s, m);
    hide Removed, SortedList, Orderly, Quiet;
    RemovedSorted(s.threads, list, t);
    SortedSame(s.threads, u.threads, Removed(list, t));
    TimeoutLoud(s, t, m);
  }

  lemma TimeoutThere(s: State, t: nat, m: nat, k: nat)
    requires Orderly(s) && m < |s.mutexes| && t < |s.threads| && s.threads[t].adjusts.None? && k < |s.mutexes| && k != m
    ensures var u := Timeout(s, t, m); SortedList(u.threads, u.mutexes[k].waiters) && InStep(u, k)
  {
    var u, list := Timeout(s, t, m), s.mutexes[k].waiters;
    assert SortedList(s.threads, list) && InStep(s, k);
    hide Removed, SortedList, Orderly;
    SortedSame(s.threads, u.threads, list);
    if Quiet(u, k) {
      forall x: nat | x < |s.threads| ensures s.threads[x].adjusts != Some(k) {
        assert u.threads[x].adjusts != Some(k);
      }
    }
  }

  /** With a waiter gone, and its readjustment still to come. */
  lemma TimeoutOrderly(s: State, t: nat, m: nat)
    requires Orderly(s) && m < |s.mutexes| && t < |s.threads| && s.threads[t].waits == Some(m) && Structure(s) && Unclamped(s)
    ensures Orderly(Timeout(s, t, m))
  {
    assert ThreadOk(s.threads[t], |s.mutexes|);
    hide Structure, InStep, SortedList, Removed;
    var u := Timeout(s, t, m);
    forall k: nat | k < |u.mutexes| ensures SortedList(u.threads, u.mutexes[k].waiters) && InStep(u, k) {
      if k == m {
        TimeoutHere(s, t, m);
      } else {
        TimeoutThere(s, t, m, k);
      }
    }
  }

  /** Steps that change no priority and no waiters. */
  lemma SameOrderly(s: State, u: State)
    requires Orderly(s) && u.ceiling == s.ceiling && |u.threads| == |s.threads| && |u.mutexes| == |s.mutexes|
    requires forall x: nat :: x < |s.threads| ==> u.threads[x].prio == s.threads[x].prio && u.threads[x].adjusts == s.threads[x].adjusts
    requires forall k: nat :: k < |s.mutexes| ==>
      && u.mutexes[k].waiters == s.mutexes[k].waiters
      && (u.mutexes[k].(count := 0) == s.mutexes[k].(count := 0)
          || (u.mutexes[k].waiters == [] && u.mutexes[k].called == u.mutexes[k].orig))
    ensures Orderly(u)
  {
    forall k: nat | k < |u.mutexes| ensures SortedList(u.threads, u.mutexes[k].waiters) && InStep(u, k) {
      assert SortedList(s.threads, s.mutexes[k].waiters) && InStep(s, k);
      SortedSame(s.threads, u.threads, s.mutexes[k].waiters);
      QuietSame(s, u, k);
      hide Quiet;
    }
  }

  lemma OtherOrderly(s: State, step: Step)
    requires Structure(s) && Orderly(s) && Enabled(s, step) && (step.DoLock? || step.DoUnlock?)
    requires step.DoLock? ==> LockCode(s, step.t, step.m, step.noWait).Some?
    requires step.DoUnlock? ==> !(UnlockCode(s, step.t, step.m) == 0 && s.mutexes[step.m].count == 1)
    ensures Orderly(Next(s, step))
  {
    assert MutexOk(step.m, s.mutexes[step.m], s.threads);
    hide Structure, Orderly, Enter, HandOff, Restore;
    SameOrderly(s, Next(s, step));
  }

  lemma StaysOrderly(s: State, step: Step)
    requires Sound(s)
    ensures Orderly(Next(s, step))
  {
    if Enabled(s, step) {
      Parts(s);
      hide Regular, Orderly, WaitersOwnNone, Structure, Unclamped, Raising, Lock, Unlock, Timeout, Adjust;
      match step
      case DoLock(t, m, noWait) =>
        if LockCode(s, t, m, noWait).None? {
          LockOrderly(s, t, m, noWait);
        } else {
          OtherOrderly(s, step);
        }
      case DoUnlock(t, m) =>
        if UnlockCode(s, t, m) == 0 && s.mutexes[m].count == 1 {
          UnlockOrderly(s, t, m);
        } else {
          OtherOrderly(s, step);
        }
      case DoTimeout(t) => TimeoutOrderly(s, t, s.threads[t].waits.value);
      case DoAdjust(t) => AdjustOrderly(s, t);
    }
  }

  lemma StaysSound(s: State, step: Step)
    requires Sound(s) && Rule(s, step)
    ensures Sound(Next(s, step))
  {
    Parts(s);
    hide Next, Regular, Structure, Orderly, WaitersOwnNone;
    StaysRegular(s, step);
    StaysOrderly(s, step);
    StaysOwnNone(s, step);
  }

  ghost predicate AllRule(s: State, steps: seq<Step>)
    decreases |steps|
  {
    steps == [] || (Rule(s, steps[0]) && AllRule(Next(s, steps[0]), steps[1..]))
  }

  /** While no owner waits, every state of every run is sound. */
  lemma {:induction false} SoundRun(s: State, steps: seq<Step>)
    requires Sound(s) && AllRule(s, steps)
    ensures Sound(Run(s, steps))
    decreases |steps|
  {
    if steps != [] {
      hide Sound, Rule;
      StaysSound(s, steps[0]);
      SoundRun(Next(s, steps[0]), steps[1..]);
    }
  }

  lemma InitialSound(s: State)
    requires Initial(s) && forall t :: 0 <= t < |s.threads| ==> s.threads[t].base >= s.ceiling
    ensures Sound(s) && Nested(s)
  {
    InitialNested(s);
    hide Structure;
  }

  // ----- What right chains mean for those who wait -----

  /** With right chains everyone who waits is served. */
  lemma NestedServed(s: State)
    requires Regular(s) && Orderly(s) && Nested(s)
    ensures Served(s)
  {
    forall m: nat | m < |s.mutexes| ensures Serves(s.threads, s.mutexes[m]) {
      if s.mutexes[m].owner.Some? && s.mutexes[m].waiters != [] {
        assert MutexOk(m, s.mutexes[m], s.threads) && SortedList(s.threads, s.mutexes[m].waiters) && InStep(s, m);
        OwnerCalled(s, s.mutexes[m].owner.value, m);
        DueUnclamped(s, m);
        hide Structure, Unclamped, Raising, Nested, Orderly, Quiet;
      }
    }
  }

  /** What an owner has because of a mutex that nobody has still to readjust: what the mutex recorded, or its first waiter's priority. */
  lemma CalledBy(s: State, m: nat)
    requires Regular(s) && Orderly(s) && m < |s.mutexes| && s.mutexes[m].owner.Some? && Quiet(s, m)
    ensures var list := s.mutexes[m].waiters;
      s.mutexes[m].called == if list == [] then s.mutexes[m].orig else Better(s.mutexes[m].orig, Prio(s.threads, list[0]))
  {
    assert InStep(s, m);
    DueUnclamped(s, m);
    hide Structure, Unclamped, Raising, Orderly, Quiet;
  }

  // ----- One mutex at a time -----

  /** A thread takes a mutex only when it owns no other. */
  ghost predicate Single(s: State, step: Step) {
    step.DoLock? ==> forall k: nat :: k != step.m ==> !Owns(s, step.t, k)
  }

  ghost predicate AllSingle(s: State, steps: seq<Step>)
    decreases |steps|
  {
    steps == [] || (Single(s, steps[0]) && AllSingle(Next(s, steps[0]), steps[1..]))
  }

  ghost predicate OwnOne(s: State) { forall t: nat :: t < |s.threads| ==> |s.threads[t].owned| <= 1 }

  lemma OnlyNewest(s: State, t: nat, m: nat)
    requires Structure(s) && OwnOne(s) && t < |s.threads| && Owns(s, t, m)
    ensures Newest(s.threads[t], m) && s.threads[t].owned == [m]
  {
    OwnedIn(s, t, m);
    hide Structure;
    var i :| 0 <= i < |s.threads[t].owned| && s.threads[t].owned[i] == m;
  }

  lemma SingleFollows(s: State, step: Step)
    requires Structure(s) && OwnOne(s) && Single(s, step)
    ensures Rule(s, step) && (Enabled(s, step) ==> Follows(s, step))
  {
    if Enabled(s, step) {
      match step
      case DoLock(t, m, noWait) =>
        assert MutexOk(m, s.mutexes[m], s.threads);
        if LockCode(s, t, m, noWait).None? {
          OnlyNewest(s, s.mutexes[m].owner.value, m);
        }
      case DoUnlock(t, m) =>
        if UnlockCode(s, t, m) == 0 {
          OnlyNewest(s, t, m);
        }
      case DoTimeout(t) =>
      case DoAdjust(t) =>
        var m := s.threads[t].adjusts.value;
        if s.mutexes[m].owner.value < |s.threads| {
          OnlyNewest(s, s.mutexes[m].owner.value, m);
        }
    }
    hide Structure;
  }

  lemma LockOwnOne(s: State, t: nat, m: nat, noWait: bool)
    requires Structure(s) && Unclamped(s) && OwnOne(s) && Single(s, DoLock(t, m, noWait)) && Enabled(s, DoLock(t, m, noWait))
    ensures OwnOne(Lock(s, t, m, noWait))
  {
    if LockCode(s, t, m, noWait).None? {
      LockRaises(s, t, m);
      hide Lock, Structure;
    } else {
      assert MutexOk(m, s.mutexes[m], s.threads);
      if s.mutexes[m].count == 0 {
        forall k: nat ensures !Owns(s, t, k) {
        }
        OwnsNothing(s, t);
      }
      hide Enter, Structure;
    }
  }

  lemma UnlockOwnOne(s: State, t: nat, m: nat)
    requires Structure(s) && WaitersOwnNone(s) && OwnOne(s) && Enabled(s, DoUnlock(t, m))
    ensures OwnOne(Unlock(s, t, m))
  {
    assert MutexOk(m, s.mutexes[m], s.threads);
    if UnlockCode(s, t, m) == 0 && s.mutexes[m].count == 1 {
      UnlockEffect(s, t, m);
      if s.mutexes[m].waiters != [] {
        HeadWaits(s, m);
        assert forall k: nat :: !Owns(s, s.mutexes[m].waiters[0], k);
        OwnsNothing(s, s.mutexes[m].waiters[0]);
      }
      hide Unlock, Structure, WaitersOwnNone, Find;
    } else {
      hide HandOff, Restore, Structure, WaitersOwnNone;
    }
  }

  lemma StaysOwnOne(s: State, step: Step)
    requires Sound(s) && OwnOne(s) && Single(s, step)
    ensures OwnOne(Next(s, step))
  {
    if Enabled(s, step) {
      Parts(s);
      hide Structure, Unclamped, Raising, Orderly, WaitersOwnNone, Lock, Unlock;
      match step
      case DoLock(t, m, noWait) => LockOwnOne(s, t, m, noWait);
      case DoUnlock(t, m) => UnlockOwnOne(s, t, m);
      case DoTimeout(t) =>
      case DoAdjust(t) =>
        var m := s.threads[t].adjusts.value;
        AdjustEffect(s, t, m, s.mutexes[m].owner.value);
        hide Adjust;
    }
  }

  lemma {:induction false} SingleRun(s: State, steps: seq<Step>)
    requires Sound(s) && OwnOne(s) && AllSingle(s, steps)
    ensures AllFollow(s, steps) && Sound(Run(s, steps)) && OwnOne(Run(s, steps))
    decreases |steps|
  {
    if steps != [] {
      Parts(s);
      hide Sound, Structure, OwnOne, Single, Rule, Follows;
      SingleFollows(s, steps[0]);
      StaysSound(s, steps[0]);
      StaysOwnOne(s, steps[0]);
      hide Next, Enabled;
      SingleRun(Next(s, steps[0]), steps[1..]);
    }
  }

  /** A waiter has the priority it was created with. */
  lemma WaiterBase(s: State, m: nat, i: nat)
    requires Sound(s) && Nested(s) && m < |s.mutexes| && i < |s.mutexes[m].waiters|
    ensures var w := s.mutexes[m].waiters[i]; w < |s.threads| && Prio(s.threads, w) == s.threads[w].base
  {
    hide Count;
    assert MutexOk(m, s.mutexes[m], s.threads);
    var w := s.mutexes[m].waiters[i];
    assert Waiting(w, s.threads[w], m, s.mutexes[m]);
    CountIn(s.mutexes[m].waiters, w);
    OwnsNothing(s, w);
    assert ChainedAt(s, w);
  }

  /** The only mutex of a thread recorded the priority that the thread was created with. */
  lemma OnlyMutex(s: State, t: nat, m: nat)
    requires Structure(s) && Nested(s) && OwnOne(s) && t < |s.threads| && Owns(s, t, m)
    ensures s.mutexes[m].orig == s.threads[t].base && s.mutexes[m].called == s.threads[t].prio
  {
    OnlyNewest(s, t, m);
    assert ChainedAt(s, t);
    hide Structure;
    assert Chained(s, [m][1..], s.mutexes[m].called, s.threads[t].prio);
    assert [m][1..] == [];
  }

  lemma SingleState(s: State, t: nat, m: nat)
    requires Sound(s) && Nested(s) && OwnOne(s) && t < |s.threads|
    ensures (forall k: nat :: !Owns(s, t, k)) ==> s.threads[t].prio == s.threads[t].base
    ensures Owns(s, t, m) ==>
      var list, th := s.mutexes[m].waiters, s.threads[t];
      && (forall i :: 0 <= i < |list| ==> list[i] < |s.threads| && th.prio <= s.threads[list[i]].base)
      && th.prio <= th.base
      && (Quiet(s, m) ==> th.prio == if list == [] then th.base else Better(th.base, s.threads[list[0]].base))
  {
    Parts(s);
    hide Structure, Unclamped, Raising, Orderly, WaitersOwnNone, Nested, OwnOne, Quiet;
    NestedPrio(s, t);
    if Owns(s, t, m) {
      OnlyMutex(s, t, m);
      NestedServed(s);
      assert Serves(s.threads, s.mutexes[m]);
      forall i | 0 <= i < |s.mutexes[m].waiters|
        ensures s.mutexes[m].waiters[i] < |s.threads|
          && Prio(s.threads, s.mutexes[m].waiters[i]) == s.threads[s.mutexes[m].waiters[i]].base
      {
        WaiterBase(s, m, i);
      }
      if Quiet(s, m) {
        CalledBy(s, m);
      }
    }
  }

  /**
   When threads take one mutex at a time, then at any moment of any run a thread without a mutex has the priority it was
   created with; an owner is no worse than that and than everyone who waits for its mutex; and unless somebody who waited in vain
   has still to readjust it, it has exactly the better of its own and the first waiter's.
   */
  lemma Inheritance(s0: State, steps: seq<Step>, t: nat, m: nat)
    requires Initial(s0) && (forall x :: 0 <= x < |s0.threads| ==> s0.threads[x].base >= s0.ceiling)
    requires AllSingle(s0, steps)
    ensures var s := Run(s0, steps);
      && (t < |s.threads| && (forall k: nat :: !Owns(s, t, k)) ==> s.threads[t].prio == s.threads[t].base)
      && (t < |s.threads| && Owns(s, t, m) ==>
            var list, th := s.mutexes[m].waiters, s.threads[t];
            && (forall i :: 0 <= i < |list| ==> list[i] < |s.threads| && th.prio <= s.threads[list[i]].base)
            && th.prio <= th.base
            && (Quiet(s, m) ==> th.prio == if list == [] then th.base else Better(th.base, s.threads[list[0]].base)))
  {
    InitialSound(s0);
    assert OwnOne(s0);
    SingleRun(s0, steps);
    NestedRun(s0, steps);
    var s := Run(s0, steps);
    hide Run, AllSingle, AllFollow, AlwaysNested, Initial;
    if t < |s.threads| {
      SingleState(s, t, m);
    }
  }
}
