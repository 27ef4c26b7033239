/** What every run of the mutex machine keeps, whatever the threads do. */
module MutexRuns {
  import opened Lists
  import opened MutexModel

  ghost predicate Waiting(t: nat, th: Thread, m: nat, mutex: Mutex) {
    Count(mutex.waiters, t) == if th.waits == Some(m) then 1 else 0
  }

  ghost predicate Placed(threads: seq<Thread>, mutexes: seq<Mutex>) {
    forall t: nat, m: nat :: t < |threads| && m < |mutexes| ==> Waiting(t, threads[t], m, mutexes[m])
  }

  ghost predicate Holding(t: nat, th: Thread, m: nat, mutex: Mutex) {
    Count(th.owned, m) == if mutex.owner == Some(t) then 1 else 0
  }

  /** A thread's record lists exactly the mutexes that it owns, each once. */
  ghost predicate Held(threads: seq<Thread>, mutexes: seq<Mutex>) {
    forall t: nat, m: nat :: t < |threads| && m < |mutexes| ==> Holding(t, threads[t], m, mutexes[m])
  }

  /** Free if and only if not counted; waiters only behind an owner, who is not one of them. */
  ghost predicate MutexOk(m: nat, mutex: Mutex, threads: seq<Thread>) {
    && (mutex.owner.None? <==> mutex.count == 0)
    && (mutex.waiters != [] ==> mutex.owner.Some?)
    && (mutex.owner.Some? ==> mutex.owner.value < |threads| && threads[mutex.owner.value].waits != Some(m))
    && (forall i :: 0 <= i < |mutex.waiters| ==> mutex.waiters[i] < |threads|)
  }

  ghost predicate MutexesOk(mutexes: seq<Mutex>, threads: seq<Thread>) {
    forall m: nat :: m < |mutexes| ==> MutexOk(m, mutexes[m], threads)
  }

  ghost predicate ThreadOk(th: Thread, n: nat) {
    && (th.waits.Some? ==> th.waits.value < n && th.adjusts.None?)
    && (th.adjusts.Some? ==> th.adjusts.value < n)
    && (forall i :: 0 <= i < |th.owned| ==> th.owned[i] < n)
  }

  ghost predicate ThreadsOk(threads: seq<Thread>, n: nat) {
    forall t: nat :: t < |threads| ==> ThreadOk(threads[t], n)
  }

  ghost predicate Structure(s: State) {
    && Placed(s.threads, s.mutexes) && Held(s.threads, s.mutexes)
    && MutexesOk(s.mutexes, s.threads) && ThreadsOk(s.threads, |s.mutexes|)
  }

  lemma SetPrioStructure(s: State, t: nat, prio: int)
    requires Structure(s)
    ensures Structure(SetPrio(s, t, prio))
  {
    hide Count;
    var u := SetPrio(s, t, prio);
    forall x: nat, k: nat | x < |u.threads| && k < |u.mutexes|
      ensures Waiting(x, u.threads[x], k, u.mutexes[k]) && Holding(x, u.threads[x], k, u.mutexes[k])
    {
      assert Waiting(x, s.threads[x], k, s.mutexes[k]) && Holding(x, s.threads[x], k, s.mutexes[k]);
    }
    forall k: nat | k < |u.mutexes| ensures MutexOk(k, u.mutexes[k], u.threads) {
      assert MutexOk(k, s.mutexes[k], s.threads);
    }
  }

  /** Owner and waiters stay the same. */
  lemma CountStructure(s: State, m: nat, mutex: Mutex)
    requires Structure(s) && m < |s.mutexes| && MutexOk(m, mutex, s.threads)
    requires mutex.waiters == s.mutexes[m].waiters && mutex.owner == s.mutexes[m].owner
    ensures Structure(s.(mutexes := s.mutexes[m := mutex]))
  {
    hide Count;
    var u := s.(mutexes := s.mutexes[m := mutex]);
    forall x: nat, k: nat | x < |u.threads| && k < |u.mutexes|
      ensures Waiting(x, u.threads[x], k, u.mutexes[k]) && Holding(x, u.threads[x], k, u.mutexes[k])
    {
      assert Waiting(x, s.threads[x], k, s.mutexes[k]) && Holding(x, s.threads[x], k, s.mutexes[k]);
    }
  }

  lemma TakeStructure(s: State, t: nat, m: nat)
    requires Structure(s) && m < |s.mutexes| && t < |s.threads| && s.threads[t].waits.None? && Grants(s.mutexes[m], t)
    ensures Structure(Take(s, t, m))
  {
    assert MutexOk(m, s.mutexes[m], s.threads);
    var u := Take(s, t, m);
    if s.mutexes[m].count > 0 {
      CountStructure(s, m, u.mutexes[m]);
    } else {
      hide Count;
      forall x: nat, k: nat | x < |u.threads| && k < |u.mutexes|
        ensures Waiting(x, u.threads[x], k, u.mutexes[k]) && Holding(x, u.threads[x], k, u.mutexes[k])
      {
        assert Waiting(x, s.threads[x], k, s.mutexes[k]) && Holding(x, s.threads[x], k, s.mutexes[k]);
        CountSnoc(s.threads[t].owned, m, k);
      }
      forall k: nat | k < |u.mutexes| ensures MutexOk(k, u.mutexes[k], u.threads) {
        assert MutexOk(k, s.mutexes[k], s.threads);
      }
      assert ThreadOk(s.threads[t], |s.mutexes|);
    }
  }

  lemma EnterStructure(s: State, t: nat, m: nat)
    requires Structure(s) && m < |s.mutexes| && t < |s.threads| && s.threads[t].waits.None? && s.threads[t].adjusts.None?
    requires s.mutexes[m].owner.Some? && s.mutexes[m].owner != Some(t)
    ensures Structure(Enter(s, t, m))
  {
    hide Count, Rank, InsertAt;
    var u := Enter(s, t, m);
    var list := s.mutexes[m].waiters;
    var p := Rank(Prios(s.threads, list), s.threads[t].prio);
    forall x: nat, k: nat | x < |u.threads| && k < |u.mutexes|
      ensures Waiting(x, u.threads[x], k, u.mutexes[k]) && Holding(x, u.threads[x], k, u.mutexes[k])
    {
      assert Waiting(x, s.threads[x], k, s.mutexes[k]) && Holding(x, s.threads[x], k, s.mutexes[k]);
      CountInsert(list, p, t, x);
    }
    forall k: nat | k < |u.mutexes| ensures MutexOk(k, u.mutexes[k], u.threads) {
      assert MutexOk(k, s.mutexes[k], s.threads);
    }
    assert ThreadOk(s.threads[t], |s.mutexes|);
  }

  lemma TimeoutStructure(s: State, t: nat, m: nat)
    requires Structure(s) && m < |s.mutexes| && t < |s.threads| && s.threads[t].waits == Some(m)
    ensures Structure(Timeout(s, t, m))
  {
    hide Count;
    var u := Timeout(s, t, m);
    var list := s.mutexes[m].waiters;
    assert Waiting(t, s.threads[t], m, s.mutexes[m]);
    CountIn(list, t);
    forall x: nat, k: nat | x < |u.threads| && k < |u.mutexes|
      ensures Waiting(x, u.threads[x], k, u.mutexes[k]) && Holding(x, u.threads[x], k, u.mutexes[k])
    {
      assert Waiting(x, s.threads[x], k, s.mutexes[k]) && Holding(x, s.threads[x], k, s.mutexes[k]);
      CountRemoved(list, t, x);
    }
    forall k: nat | k < |u.mutexes| ensures MutexOk(k, u.mutexes[k], u.threads) {
      assert MutexOk(k, s.mutexes[k], s.threads);
    }
    assert ThreadOk(s.threads[t], |s.mutexes|);
  }

  /** The first waiter waits for this mutex. */
  lemma HeadWaits(s: State, m: nat)
    requires Structure(s) && m < |s.mutexes| && s.mutexes[m].waiters != []
    ensures var n := s.mutexes[m].waiters[0];
      n < |s.threads| && s.threads[n].waits == Some(m) && s.mutexes[m].owner != Some(n)
  {
    assert MutexOk(m, s.mutexes[m], s.threads);
    var n := s.mutexes[m].waiters[0];
    assert Waiting(n, s.threads[n], m, s.mutexes[m]);
  }

  lemma HandedOverPlaced(s: State, t: nat, m: nat)
    requires Structure(s) && m < |s.mutexes| && t < |s.threads| && s.mutexes[m].owner == Some(t) && s.mutexes[m].waiters != []
    ensures var u := HandOff(Restore(s, t, m), m); Placed(u.threads, u.mutexes) && Held(u.threads, u.mutexes)
  {
    HeadWaits(s, m);
    var u := HandOff(Restore(s, t, m), m);
    var n := s.mutexes[m].waiters[0];
    assert Waiting(n, s.threads[n], m, s.mutexes[m]);
    assert Holding(t, s.threads[t], m, s.mutexes[m]);
    CountIn(s.threads[t].owned, m);
    forall x: nat, k: nat | x < |u.threads| && k < |u.mutexes|
      ensures Waiting(x, u.threads[x], k, u.mutexes[k]) && Holding(x, u.threads[x], k, u.mutexes[k])
    {
      assert Waiting(x, s.threads[x], k, s.mutexes[k]) && Holding(x, s.threads[x], k, s.mutexes[k]);
      CountRemoved(s.threads[t].owned, m, k);
      CountSnoc(s.threads[n].owned, m, k);
    }
  }

  lemma FreedPlaced(s: State, t: nat, m: nat)
    requires Structure(s) && m < |s.mutexes| && t < |s.threads| && s.mutexes[m].owner == Some(t) && s.mutexes[m].waiters == []
    ensures var u := HandOff(Restore(s, t, m), m); Placed(u.threads, u.mutexes) && Held(u.threads, u.mutexes)
  {
    hide Count;
    var u := HandOff(Restore(s, t, m), m);
    assert Holding(t, s.threads[t], m, s.mutexes[m]);
    CountIn(s.threads[t].owned, m);
    forall x: nat, k: nat | x < |u.threads| && k < |u.mutexes|
      ensures Waiting(x, u.threads[x], k, u.mutexes[k]) && Holding(x, u.threads[x], k, u.mutexes[k])
    {
      assert Waiting(x, s.threads[x], k, s.mutexes[k]) && Holding(x, s.threads[x], k, s.mutexes[k]);
      CountRemoved(s.threads[t].owned, m, k);
    }
  }

  lemma LastUnlockStructure(s: State, t: nat, m: nat)
    requires Structure(s) && m < |s.mutexes| && t < |s.threads| && s.mutexes[m].owner == Some(t) && s.threads[t].waits.None?
    ensures Structure(HandOff(Restore(s, t, m), m))
  {
    var mutex, u := s.mutexes[m], HandOff(Restore(s, t, m), m);
    if mutex.waiters == [] {
      FreedPlaced(s, t, m);
    } else {
      HandedOverPlaced(s, t, m);
      HeadWaits(s, m);
      assert ThreadOk(s.threads[mutex.waiters[0]], |s.mutexes|);
    }
    hide Placed, Held;
    assert ThreadOk(s.threads[t], |s.mutexes|);
    forall k: nat | k < |u.mutexes| ensures MutexOk(k, u.mutexes[k], u.threads) {
      assert MutexOk(k, s.mutexes[k], s.threads);
    }
  }

  lemma LockStructure(s: State, t: nat, m: nat, noWait: bool)
    requires Structure(s) && Enabled(s, DoLock(t, m, noWait))
    ensures Structure(Lock(s, t, m, noWait))
  {
    assert MutexOk(m, s.mutexes[m], s.threads);
    hide Structure, Rank, Take;
    if Grants(s.mutexes[m], t) {
      TakeStructure(s, t, m);
    } else if !noWait {
      var o := s.mutexes[m].owner.value;
      SetPrioStructure(s, o, Inherited(s.ceiling, s.threads[t].prio, Prio(s.threads, o)));
      EnterStructure(Raise(s, t, m), t, m);
    }
  }

  lemma UnlockStructure(s: State, t: nat, m: nat)
    requires Structure(s) && Enabled(s, DoUnlock(t, m))
    ensures Structure(Unlock(s, t, m))
  {
    assert MutexOk(m, s.mutexes[m], s.threads);
    hide Structure, HandOff, Restore;
    if UnlockCode(s, t, m) == 0 {
      if s.mutexes[m].count > 1 {
        CountStructure(s, m, s.mutexes[m].(count := s.mutexes[m].count - 1));
      } else {
        LastUnlockStructure(s, t, m);
      }
    }
  }

  lemma AdjustStructure(s: State, t: nat, m: nat, o: nat)
    requires Structure(s) && m < |s.mutexes| && t < |s.threads|
    ensures Structure(Adjust(s, t, m, o))
  {
    hide Count;
    assert MutexOk(m, s.mutexes[m], s.threads);
    CountStructure(s, m, s.mutexes[m].(called := Due(s, m)));
    var r := s.(mutexes := s.mutexes[m := s.mutexes[m].(called := Due(s, m))]);
    var u := r.(threads := r.threads[t := r.threads[t].(adjusts := None)]);
    hide Due;
    forall x: nat, k: nat | x < |u.threads| && k < |u.mutexes|
      ensures Waiting(x, u.threads[x], k, u.mutexes[k]) && Holding(x, u.threads[x], k, u.mutexes[k])
    {
      assert Waiting(x, r.threads[x], k, r.mutexes[k]) && Holding(x, r.threads[x], k, r.mutexes[k]);
    }
    forall k: nat | k < |u.mutexes| ensures MutexOk(k, u.mutexes[k], u.threads) {
      assert MutexOk(k, r.mutexes[k], r.threads);
    }
    assert ThreadOk(r.threads[t], |s.mutexes|);
    SetPrioStructure(u, o, Due(s, m));
  }

  lemma NextStructure(s: State, step: Step)
    requires Structure(s)
    ensures Structure(Next(s, step))
  {
    if Enabled(s, step) {
      hide Structure, Lock, Unlock, Timeout, Adjust;
      match step
      case DoLock(t, m, noWait) => LockStructure(s, t, m, noWait);
      case DoUnlock(t, m) => UnlockStructure(s, t, m);
      case DoTimeout(t) => TimeoutStructure(s, t, s.threads[t].waits.value);
      case DoAdjust(t) => AdjustStructure(s, t, s.threads[t].adjusts.value, s.mutexes[s.threads[t].adjusts.value].owner.value);
    }
  }

  lemma InitialStructure(s: State)
    requires Initial(s)
    ensures Structure(s)
  {
    forall t: nat, m: nat | t < |s.threads| && m < |s.mutexes|
      ensures Waiting(t, s.threads[t], m, s.mutexes[m]) && Holding(t, s.threads[t], m, s.mutexes[m])
    {
    }
  }

  /** So in every run a mutex is free if and only if its count is zero, and nobody waits for a free mutex. */
  lemma {:induction false} OwnedIffCounted(s0: State, steps: seq<Step>, m: nat)
    requires Structure(s0)
    ensures var s := Run(s0, steps);
      Structure(s) && (m < |s.mutexes| ==>
        && (s.mutexes[m].owner.None? <==> s.mutexes[m].count == 0)
        && (s.mutexes[m].waiters != [] ==> s.mutexes[m].owner.Some?))
    decreases |steps|
  {
    if steps != [] {
      NextStructure(s0, steps[0]);
      OwnedIffCounted(Next(s0, steps[0]), steps[1..], m);
      hide Next;
    } else if m < |s0.mutexes| {
      assert MutexOk(m, s0.mutexes[m], s0.threads);
    }
  }

  lemma TakenBack(owned: seq<nat>, m: nat)
    requires m !in owned
    ensures Removed(owned + [m], m) == owned
  {
    var l := owned + [m];
    forall i | 0 <= i < |owned| ensures l[i] != m {
      assert l[i] == owned[i] && owned[i] in owned;
    }
    assert l[|owned|] == m;
    assert Find(l, m) == |owned|;
  }

  /** Unlocking undoes locking: exactly for a mutex that is owned already, and up to the recorded priority for a free one. */
  lemma LockUnlock(s: State, t: nat, m: nat, noWait: bool)
    requires Structure(s) && Enabled(s, DoLock(t, m, noWait)) && Grants(s.mutexes[m], t)
    ensures var u := Unlock(Lock(s, t, m, noWait), t, m);
      && (s.mutexes[m].owner == Some(t) ==> u == s)
      && (s.mutexes[m].owner.None? ==>
            u.threads == s.threads && u.mutexes == s.mutexes[m := s.mutexes[m].(orig := s.threads[t].prio, called := s.threads[t].prio)])
  {
    assert MutexOk(m, s.mutexes[m], s.threads);
    var l := Lock(s, t, m, noWait);
    if s.mutexes[m].owner == Some(t) {
      hide Structure;
      assert Unlock(l, t, m).mutexes == s.mutexes;
    } else {
      assert Holding(t, s.threads[t], m, s.mutexes[m]);
      CountIn(s.threads[t].owned, m);
      TakenBack(s.threads[t].owned, m);
      hide Structure, Removed;
      assert Restore(l, t, m).threads == s.threads;
    }
  }
}
