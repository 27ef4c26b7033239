/** Priority inheritance of kernel/mutex.c: exactly when an owner runs at least at the priority of everyone who waits for it. */
module MutexInheritance {
  import opened Lists
  import opened MutexModel
  import opened MutexRuns

  ghost predicate Owns(s: State, t: nat, m: nat) { m < |s.mutexes| && s.mutexes[m].owner == Some(t) }

  /** No priority is better than the ceiling. */
  ghost predicate Unclamped(s: State) {
    && (forall t: nat :: t < |s.threads| ==> s.threads[t].prio >= s.ceiling)
    && (forall m: nat :: m < |s.mutexes| && s.mutexes[m].owner.Some? ==> s.mutexes[m].orig >= s.ceiling)
  }

  // ----- What a step does -----

  /** The step concerns mutex `m` and the priority of thread `o`, and no other. */
  ghost predicate Touches(s: State, u: State, o: nat, m: nat) {
    && u.ceiling == s.ceiling && |u.threads| == |s.threads| && |u.mutexes| == |s.mutexes|
    && (forall k: nat :: k < |s.mutexes| && k != m ==> u.mutexes[k] == s.mutexes[k])
    && (forall x: nat :: x < |s.threads| && x != o ==> u.threads[x].prio == s.threads[x].prio)
    && (forall x: nat :: x < |s.threads| ==> u.threads[x].base == s.threads[x].base)
  }

  ghost predicate SameOwned(s: State, u: State) {
    |u.threads| == |s.threads| && forall x: nat :: x < |s.threads| ==> u.threads[x].owned == s.threads[x].owned
  }

  /** The owner gets the better of its priority and the new waiter's. */
  lemma LockRaises(s: State, t: nat, m: nat)
    requires Structure(s) && Unclamped(s) && Enabled(s, DoLock(t, m, false)) && !Grants(s.mutexes[m], t)
    ensures s.mutexes[m].owner.Some?
    ensures var o := s.mutexes[m].owner.value;
      var u := Lock(s, t, m, false);
      && o < |s.threads| && o != t && Touches(s, u, o, m) && SameOwned(s, u)
      && u.threads[o].prio == Better(s.threads[t].prio, s.threads[o].prio)
  {
    hide Rank, InsertAt;
    assert MutexOk(m, s.mutexes[m], s.threads);
    hide Structure;
  }

  /** The mutex of a waiting lock: the new waiter is in the list, and the head is the better of the two. */
  lemma LockMutex(s: State, t: nat, m: nat)
    requires Structure(s) && Enabled(s, DoLock(t, m, false)) && !Grants(s.mutexes[m], t)
    ensures var list, u := s.mutexes[m].waiters, Lock(s, t, m, false);
      && m < |u.mutexes|
      && u.mutexes[m] == s.mutexes[m].(called := Better(s.mutexes[m].called, s.threads[t].prio), waiters := u.mutexes[m].waiters)
      && u.mutexes[m].waiters != []
      && u.mutexes[m].waiters[0] == (if list == [] || s.threads[t].prio < Prio(s.threads, list[0]) then t else list[0])
      && forall n :: n in u.mutexes[m].waiters ==> n == t || n in list
  {
    hide Rank;
    assert MutexOk(m, s.mutexes[m], s.threads);
    var list, r := s.mutexes[m].waiters, Raise(s, t, m);
    var p := Rank(Prios(r.threads, list), r.threads[t].prio);
    if list != [] {
      HeadWaits(s, m);
      assert Prios(r.threads, list)[0] == Prio(s.threads, list[0]);
    }
    hide Structure;
    InsertIn(list, p, t);
  }

  lemma UnlockEffect(s: State, t: nat, m: nat)
    requires Structure(s) && Enabled(s, DoUnlock(t, m)) && UnlockCode(s, t, m) == 0 && s.mutexes[m].count == 1
    ensures var u := Unlock(s, t, m);
      var list := s.mutexes[m].waiters;
      && Touches(s, u, t, m) && Owns(s, t, m) && u.threads[t].prio == s.mutexes[m].orig
      && u.threads[t].owned == Removed(s.threads[t].owned, m)
      && (list == [] ==>
            u.mutexes[m] == s.mutexes[m].(owner := None, count := 0)
            && (forall x: nat :: x < |s.threads| && x != t ==> u.threads[x].owned == s.threads[x].owned))
      && (list != [] ==>
            && list[0] < |s.threads| && list[0] != t
            && u.mutexes[m] == s.mutexes[m].(owner := Some(list[0]), orig := s.threads[list[0]].prio, called := s.threads[list[0]].prio,
                                             waiters := list[1..])
            && u.threads[list[0]] == s.threads[list[0]].(waits := None, owned := s.threads[list[0]].owned + [m])
            && (forall x: nat :: x < |s.threads| && x != t && x != list[0] ==> u.threads[x].owned == s.threads[x].owned))
  {
    hide Count, Removed;
    assert MutexOk(m, s.mutexes[m], s.threads);
    if s.mutexes[m].waiters != [] {
      HeadWaits(s, m);
    }
    hide Structure;
  }

  lemma AdjustEffect(s: State, t: nat, m: nat, o: nat)
    requires Structure(s) && t < |s.threads| && Owns(s, o, m)
    ensures var u := Adjust(s, t, m, o);
      && o < |s.threads| && Touches(s, u, o, m) && SameOwned(s, u) && u.threads[o].prio == Due(s, m)
      && u.mutexes[m] == s.mutexes[m].(called := Due(s, m))
  {
    assert MutexOk(m, s.mutexes[m], s.threads);
    hide Structure, Due;
  }

  /** A readjusted mutex calls for what it did. */
  lemma AdjustDue(s: State, t: nat, m: nat, o: nat)
    requires Structure(s) && t < |s.threads| && Owns(s, o, m)
    ensures Due(Adjust(s, t, m, o), m) == Due(s, m)
  {
    AdjustEffect(s, t, m, o);
    if s.mutexes[m].waiters != [] {
      HeadWaits(s, m);
    }
    hide Structure, Adjust;
  }

  // ----- Priorities stay below the ceiling -----

  lemma LockUnclamped(s: State, t: nat, m: nat, noWait: bool)
    requires Structure(s) && Unclamped(s) && Enabled(s, DoLock(t, m, noWait))
    ensures Unclamped(Lock(s, t, m, noWait))
  {
    if LockCode(s, t, m, noWait).None? {
      LockRaises(s, t, m);
      LockMutex(s, t, m);
      hide Lock, Structure;
    } else {
      hide Enter, Structure;
    }
  }

  lemma UnlockUnclamped(s: State, t: nat, m: nat)
    requires Structure(s) && Unclamped(s) && Enabled(s, DoUnlock(t, m))
    ensures Unclamped(Unlock(s, t, m))
  {
    assert MutexOk(m, s.mutexes[m], s.threads);
    if UnlockCode(s, t, m) == 0 && s.mutexes[m].count == 1 {
      UnlockEffect(s, t, m);
      hide Unlock, Structure;
    } else {
      hide HandOff, Restore, Structure;
    }
  }

  lemma DueUnclamped(s: State, m: nat)
    requires Structure(s) && Unclamped(s) && m < |s.mutexes| && s.mutexes[m].owner.Some?
    ensures s.ceiling <= Due(s, m) <= s.mutexes[m].orig
    ensures s.mutexes[m].waiters != [] ==> Due(s, m) == Better(s.mutexes[m].orig, Prio(s.threads, s.mutexes[m].waiters[0]))
  {
    assert MutexOk(m, s.mutexes[m], s.threads);
    hide Structure;
  }

  lemma StaysUnclamped(s: State, step: Step)
    requires Structure(s) && Unclamped(s)
    ensures Unclamped(Next(s, step))
  {
    if Enabled(s, step) {
      hide Structure, Lock, Unlock;
      match step
      case DoLock(t, m, noWait) => LockUnclamped(s, t, m, noWait);
      case DoUnlock(t, m) => UnlockUnclamped(s, t, m);
      case DoTimeout(t) =>
        hide Removed;
      case DoAdjust(t) =>
        var m := s.threads[t].adjusts.value;
        AdjustEffect(s, t, m, s.mutexes[m].owner.value);
        DueUnclamped(s, m);
        hide Adjust, Due;
    }
  }

  // ----- Everyone who waits is served -----

  ghost predicate Serves(threads: seq<Thread>, mutex: Mutex) {
    mutex.owner.Some? ==> forall i :: 0 <= i < |mutex.waiters| ==> Prio(threads, mutex.owner.value) <= Prio(threads, mutex.waiters[i])
  }

  /** No owner is worse than any thread that waits for one of its mutexes. */
  ghost predicate Served(s: State) { forall m: nat :: m < |s.mutexes| ==> Serves(s.threads, s.mutexes[m]) }

  /** Somebody who waits for the mutex is better than `prio`. */
  ghost predicate Beaten(s: State, m: nat, prio: int)
    requires m < |s.mutexes|
  {
    exists i :: 0 <= i < |s.mutexes[m].waiters| && Prio(s.threads, s.mutexes[m].waiters[i]) < prio
  }

  /** Somebody who waits for another mutex of the thread than `m` is better than `prio`. */
  ghost predicate BeatenElsewhere(s: State, t: nat, m: nat, prio: int) {
    exists k: nat :: k != m && Owns(s, t, k) && Beaten(s, k, prio)
  }

  /** With priority `prio` the thread would be better than the owner of a mutex that it waits for itself. */
  ghost predicate Overtakes(s: State, o: nat, prio: int) {
    && o < |s.threads| && s.threads[o].waits.Some? && s.threads[o].waits.value < |s.mutexes|
    && s.mutexes[s.threads[o].waits.value].owner.Some?
    && prio < Prio(s.threads, s.mutexes[s.threads[o].waits.value].owner.value)
  }

  /** The steps that leave somebody behind. */
  ghost predicate Drops(s: State, step: Step)
    requires Enabled(s, step)
  {
    match step
    case DoLock(t, m, noWait) =>
      && LockCode(s, t, m, noWait).None? && s.mutexes[m].owner.Some?
      && var o := s.mutexes[m].owner.value; Overtakes(s, o, Better(s.threads[t].prio, Prio(s.threads, o)))
    case DoUnlock(t, m) =>
      && UnlockCode(s, t, m) == 0 && s.mutexes[m].count == 1
      && (BeatenElsewhere(s, t, m, s.mutexes[m].orig) ||
          (s.mutexes[m].waiters != [] && Beaten(s, m, Prio(s.threads, s.mutexes[m].waiters[0]))))
    case DoTimeout(_) => false
    case DoAdjust(t) =>
      var m := s.threads[t].adjusts.value;
      var o, d := s.mutexes[m].owner.value, Due(s, m);
      Beaten(s, m, d) || BeatenElsewhere(s, o, m, d) || Overtakes(s, o, d)
  }

  /** With a new priority of thread `o`, an unchanged mutex serves its waiters unless it is `o`'s and beaten, or `o` waits and overtakes. */
  lemma NewPrio(s: State, threads: seq<Thread>, o: nat, k: nat)
    requires Structure(s) && k < |s.mutexes| && Serves(s.threads, s.mutexes[k]) && o < |s.threads| && |threads| == |s.threads|
    requires forall x: nat :: x < |s.threads| && x != o ==> threads[x].prio == s.threads[x].prio
    ensures Serves(threads, s.mutexes[k]) <==>
      && (Owns(s, o, k) ==> !Beaten(s, k, threads[o].prio))
      && (s.threads[o].waits == Some(k) ==> !Overtakes(s, o, threads[o].prio))
  {
    var mutex := s.mutexes[k];
    assert MutexOk(k, mutex, s.threads);
    assert Waiting(o, s.threads[o], k, mutex);
    CountIn(mutex.waiters, o);
    hide Structure, Count;
    if s.threads[o].waits == Some(k) && mutex.owner.Some? {
      var i :| 0 <= i < |mutex.waiters| && mutex.waiters[i] == o;
      assert Prio(threads, mutex.waiters[i]) == threads[o].prio;
    }
  }

  lemma OvertakesWaits(s: State, o: nat, prio: int)
    requires Overtakes(s, o, prio)
    ensures o < |s.threads| && s.threads[o].waits.Some? && s.threads[o].waits.value < |s.mutexes|
  {
  }

  /** A step that touches `o` and `m` serves everybody exactly if it does at `m`, nobody else's waiter is better, and `o` overtakes nobody. */
  lemma ServedIff(s: State, u: State, o: nat, m: nat)
    requires Structure(s) && Served(s) && o < |s.threads| && Owns(s, o, m) && Touches(s, u, o, m)
    ensures Served(u) <==>
      && Serves(u.threads, u.mutexes[m]) && !BeatenElsewhere(s, o, m, u.threads[o].prio) && !Overtakes(s, o, u.threads[o].prio)
  {
    var p := u.threads[o].prio;
    assert MutexOk(m, s.mutexes[m], s.threads) && ThreadOk(s.threads[o], |s.mutexes|);
    forall k: nat | k < |s.mutexes| && k != m
      ensures Serves(u.threads, u.mutexes[k]) <==>
        !(Owns(s, o, k) && Beaten(s, k, p)) && !(s.threads[o].waits == Some(k) && Overtakes(s, o, p))
    {
      NewPrio(s, u.threads, o, k);
    }
    hide Structure, Serves, Beaten, Overtakes;
    if Overtakes(s, o, p) {
      OvertakesWaits(s, o, p);
      assert !Serves(u.threads, u.mutexes[s.threads[o].waits.value]);
    }
  }

  /** An owner is not among those who wait for its mutex. */
  lemma WaitsElsewhere(s: State, o: nat, m: nat)
    requires Structure(s) && Owns(s, o, m)
    ensures o < |s.threads| && o !in s.mutexes[m].waiters
  {
    hide Count;
    assert MutexOk(m, s.mutexes[m], s.threads);
    assert Waiting(o, s.threads[o], m, s.mutexes[m]);
    CountIn(s.mutexes[m].waiters, o);
  }

  lemma NobodyBeats(s: State, o: nat, prio: int)
    requires Served(s) && prio <= Prio(s.threads, o)
    ensures forall k: nat :: Owns(s, o, k) ==> !Beaten(s, k, prio)
  {
    forall k: nat | Owns(s, o, k) ensures !Beaten(s, k, prio) {
      assert Serves(s.threads, s.mutexes[k]);
    }
  }

  lemma GrantServes(s: State, t: nat, m: nat, noWait: bool)
    requires Structure(s) && Served(s) && Enabled(s, DoLock(t, m, noWait)) && LockCode(s, t, m, noWait).Some?
    ensures Served(Lock(s, t, m, noWait))
  {
    var u := Lock(s, t, m, noWait);
    assert MutexOk(m, s.mutexes[m], s.threads);
    hide Structure, Enter;
    forall k: nat | k < |u.mutexes| ensures Serves(u.threads, u.mutexes[k]) {
      assert Serves(s.threads, s.mutexes[k]);
    }
  }

  lemma LockServes(s: State, t: nat, m: nat, noWait: bool)
    requires Structure(s) && Unclamped(s) && Served(s) && Enabled(s, DoLock(t, m, noWait))
    ensures Served(Lock(s, t, m, noWait)) <==> !Drops(s, DoLock(t, m, noWait))
  {
    if LockCode(s, t, m, noWait).None? {
      LockRaises(s, t, m);
      LockMutex(s, t, m);
      var o, u := s.mutexes[m].owner.value, Lock(s, t, m, noWait);
      assert Serves(u.threads, u.mutexes[m]) by {
        WaitsElsewhere(s, o, m);
        hide Lock;
        assert Serves(s.threads, s.mutexes[m]);
      }
      hide Lock;
      assert !BeatenElsewhere(s, o, m, u.threads[o].prio) by {
        NobodyBeats(s, o, u.threads[o].prio);
      }
      ServedIff(s, u, o, m);
    } else {
      GrantServes(s, t, m, noWait);
    }
  }

  /** After a hand-over the new owner serves the others exactly if none of them is better. */
  lemma HandedServes(s: State, threads: seq<Thread>, t: nat, m: nat)
    requires Structure(s) && Owns(s, t, m) && s.mutexes[m].waiters != [] && t < |s.threads| && |threads| == |s.threads|
    requires forall x: nat :: x < |s.threads| && x != t ==> threads[x].prio == s.threads[x].prio
    ensures var list := s.mutexes[m].waiters;
      Serves(threads, s.mutexes[m].(owner := Some(list[0]), waiters := list[1..])) <==> !Beaten(s, m, Prio(s.threads, list[0]))
  {
    WaitsElsewhere(s, t, m);
    hide Structure;
    var list := s.mutexes[m].waiters;
    forall i | 0 <= i < |list| ensures Prio(threads, list[i]) == Prio(s.threads, list[i]) {
      assert list[i] in list;
    }
    if Beaten(s, m, Prio(s.threads, list[0])) {
      var i :| 0 <= i < |list| && Prio(s.threads, list[i]) < Prio(s.threads, list[0]);
      assert list[1..][i - 1] == list[i];
    }
  }

  lemma UnlockServes(s: State, t: nat, m: nat)
    requires Structure(s) && Served(s) && Enabled(s, DoUnlock(t, m))
    ensures Served(Unlock(s, t, m)) <==> !Drops(s, DoUnlock(t, m))
  {
    var u, mutex := Unlock(s, t, m), s.mutexes[m];
    assert MutexOk(m, mutex, s.threads);
    if UnlockCode(s, t, m) == 0 && mutex.count == 1 {
      UnlockEffect(s, t, m);
      if mutex.waiters != [] {
        HandedServes(s, u.threads, t, m);
      }
      hide Unlock;
      ServedIff(s, u, t, m);
      hide Structure;
    } else {
      hide HandOff, Restore, Structure;
      forall k: nat | k < |u.mutexes| ensures Serves(u.threads, u.mutexes[k]) {
        assert Serves(s.threads, s.mutexes[k]);
      }
    }
  }

  lemma TimeoutServes(s: State, t: nat, m: nat)
    requires Served(s) && t < |s.threads| && m < |s.mutexes|
    ensures Served(Timeout(s, t, m))
  {
    var u := Timeout(s, t, m);
    forall k: nat | k < |u.mutexes| ensures Serves(u.threads, u.mutexes[k]) {
      assert Serves(s.threads, s.mutexes[k]);
    }
  }

  lemma AdjustServes(s: State, t: nat)
    requires Structure(s) && Served(s) && Enabled(s, DoAdjust(t))
    ensures Served(Next(s, DoAdjust(t))) <==> !Drops(s, DoAdjust(t))
  {
    var m := s.threads[t].adjusts.value;
    var o := s.mutexes[m].owner.value;
    AdjustEffect(s, t, m, o);
    var u := Adjust(s, t, m, o);
    assert MutexOk(m, s.mutexes[m], s.threads);
    assert Serves(s.threads, s.mutexes[m]);
    NewPrio(s, u.threads, o, m);
    assert Serves(u.threads, u.mutexes[m]) <==> Serves(u.threads, s.mutexes[m]);
    hide Adjust, Due;
    ServedIff(s, u, o, m);
    hide Structure;
  }

  /**
   From a state in which everybody is served a step keeps it so if and only if it does not drop anybody.  A lock fails when it
   raises an owner that waits itself above the owner of that mutex; an unlock or a readjustment when the priority that it gives
   is worse than somebody's who waits.
   */
  lemma StaysServed(s: State, step: Step)
    requires Structure(s) && Unclamped(s) && Served(s) && Enabled(s, step)
    ensures Served(Next(s, step)) <==> !Drops(s, step)
  {
    hide Structure, Unclamped, Served, Lock, Unlock, Timeout;
    match step
    case DoLock(t, m, noWait) => LockServes(s, t, m, noWait);
    case DoUnlock(t, m) => UnlockServes(s, t, m);
    case DoTimeout(t) => TimeoutServes(s, t, s.threads[t].waits.value);
    case DoAdjust(t) => AdjustServes(s, t);
  }

  // ----- Runs -----

  ghost predicate AlwaysServed(s: State, steps: seq<Step>)
    decreases |steps|
  {
    Served(s) && (steps == [] || AlwaysServed(Next(s, steps[0]), steps[1..]))
  }

  ghost predicate NeverDrops(s: State, steps: seq<Step>)
    decreases |steps|
  {
    steps == [] || ((Enabled(s, steps[0]) ==> !Drops(s, steps[0])) && NeverDrops(Next(s, steps[0]), steps[1..]))
  }

  /** Everybody is served at every moment of a run if and only if no step of it drops anybody. */
  lemma {:induction false} ServedRun(s: State, steps: seq<Step>)
    requires Structure(s) && Unclamped(s) && Served(s)
    ensures AlwaysServed(s, steps) <==> NeverDrops(s, steps)
    decreases |steps|
  {
    hide Structure, Unclamped, Served, Drops;
    if steps != [] {
      NextStructure(s, steps[0]);
      StaysUnclamped(s, steps[0]);
      if Enabled(s, steps[0]) {
        StaysServed(s, steps[0]);
      }
      hide Next, Enabled;
      if Served(Next(s, steps[0])) {
        ServedRun(Next(s, steps[0]), steps[1..]);
      }
    }
  }

  lemma InitialServed(s: State)
    requires Initial(s) && forall t :: 0 <= t < |s.threads| ==> s.threads[t].base >= s.ceiling
    ensures Structure(s) && Unclamped(s) && Served(s)
  {
    InitialStructure(s);
    hide Structure;
  }

  // ----- The ceiling -----

  /** With a ceiling, readjusting leaves the owner worse than its recorded priority exactly when that is better than the ceiling. */
  lemma CeilingLowers(s: State, t: nat)
    requires Structure(s) && Enabled(s, DoAdjust(t))
    ensures var m := s.threads[t].adjusts.value;
      var o, u := s.mutexes[m].owner.value, Next(s, DoAdjust(t));
      s.mutexes[m].waiters != [] ==> (Prio(u.threads, o) > s.mutexes[m].orig <==> s.mutexes[m].orig < s.ceiling)
  {
    var m := s.threads[t].adjusts.value;
    AdjustEffect(s, t, m, s.mutexes[m].owner.value);
    hide Structure, Adjust;
  }
}
