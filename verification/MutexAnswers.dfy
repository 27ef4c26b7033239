/** What locking, unlocking and giving up (kernel/mutex.c) do and answer, spelled out for owners, counts, waiters and priorities. */
module MutexAnswers {
  import opened Lists
  import opened MutexModel
  import opened MutexRuns

  function Worse(a: int, b: int): int { if a > b then a else b }

  /** Nothing but the mutex and the priority of one thread has changed, besides what the threads record. */
  ghost predicate Leaves(s: State, u: State, m: nat) {
    && u.ceiling == s.ceiling && |u.threads| == |s.threads| && |u.mutexes| == |s.mutexes|
    && forall k: nat :: k < |s.mutexes| && k != m ==> u.mutexes[k] == s.mutexes[k]
  }

  ghost predicate PriosSame(s: State, u: State, but: Option<nat>) {
    |u.threads| == |s.threads| && forall x: nat :: x < |s.threads| && but != Some(x) ==> u.threads[x].prio == s.threads[x].prio
  }

  ghost predicate WaitsSame(s: State, u: State, but: Option<nat>) {
    |u.threads| == |s.threads| && forall x: nat :: x < |s.threads| && but != Some(x) ==> u.threads[x].waits == s.threads[x].waits
  }

  /**
   A mutex that is free, or the caller's own, is granted: counted once more, and with the caller's priority recorded the first
   time.  No priority changes.
   */
  lemma GrantAnswer(s: State, t: nat, m: nat, noWait: bool)
    requires Structure(s) && Enabled(s, DoLock(t, m, noWait)) && (s.mutexes[m].owner.None? || s.mutexes[m].owner == Some(t))
    ensures var u, mutex := Lock(s, t, m, noWait), s.mutexes[m];
      && LockCode(s, t, m, noWait) == Some(0)
      && Leaves(s, u, m) && PriosSame(s, u, None) && WaitsSame(s, u, None)
      && u.mutexes[m].owner == Some(t) && u.mutexes[m].count == mutex.count + 1 && u.mutexes[m].waiters == mutex.waiters
      && u.mutexes[m].orig == (if mutex.owner.None? then s.threads[t].prio else mutex.orig)
      && u.threads[t].owned == (if mutex.owner.None? then s.threads[t].owned + [m] else s.threads[t].owned)
  {
    assert MutexOk(m, s.mutexes[m], s.threads);
    hide Structure, Enter, Raise;
  }

  /**
   A mutex of somebody else: who may not wait gets -EBUSY and changes nothing.  Others wait, behind those that are no worse, and
   the owner gets the better of both priorities, but none better than the ceiling, if that is better than what it has.
   */
  lemma WaitAnswer(s: State, t: nat, m: nat, noWait: bool)
    requires Structure(s) && Enabled(s, DoLock(t, m, noWait)) && s.mutexes[m].owner.Some? && s.mutexes[m].owner != Some(t)
    ensures var u, mutex, o := Lock(s, t, m, noWait), s.mutexes[m], s.mutexes[m].owner.value;
      && o < |s.threads|
      && if noWait then LockCode(s, t, m, noWait) == Some(-EBUSY) && u == s
         else
           && LockCode(s, t, m, noWait) == None
           && Leaves(s, u, m) && PriosSame(s, u, Some(o)) && WaitsSame(s, u, Some(t)) && u.threads[t].waits == Some(m)
           && u.threads[o].prio ==
                Better(s.threads[o].prio, Worse(s.ceiling, Better(s.threads[t].prio, s.threads[o].prio)))
           && u.mutexes[m].owner == mutex.owner && u.mutexes[m].count == mutex.count && u.mutexes[m].orig == mutex.orig
           && exists i: nat :: i <= |mutex.waiters| && u.mutexes[m].waiters == InsertAt(mutex.waiters, i, t)
                && InPlace(Prios(u.threads, mutex.waiters), i, s.threads[t].prio)
  {
    assert MutexOk(m, s.mutexes[m], s.threads);
    if !noWait {
      var r := Raise(s, t, m);
      hide Structure, Rank, InsertAt;
      var list := s.mutexes[m].waiters;
      var i := Rank(Prios(r.threads, list), r.threads[t].prio);
      var u := Enter(r, t, m);
      assert Prios(u.threads, list) == Prios(r.threads, list);
      assert InPlace(Prios(u.threads, list), i, s.threads[t].prio);
    }
  }

  /**
   Only the owner unlocks.  A mutex that is held more than once is counted down; the last unlock gives the recorded priority back
   and makes the first waiter the owner, with its own priority recorded, or frees the mutex.
   */
  lemma UnlockAnswer(s: State, t: nat, m: nat)
    requires Structure(s) && Enabled(s, DoUnlock(t, m))
    ensures var u, mutex, code := Unlock(s, t, m), s.mutexes[m], UnlockCode(s, t, m);
      && (code == -EINVAL <==> mutex.owner.None?) && (code == -EPERM <==> mutex.owner.Some? && mutex.owner != Some(t))
      && (code == 0 <==> mutex.owner == Some(t)) && (code != 0 ==> u == s)
      && (code == 0 && mutex.count > 1 ==> u == s.(mutexes := s.mutexes[m := mutex.(count := mutex.count - 1)]))
      && (code == 0 && mutex.count == 1 ==>
            && Leaves(s, u, m) && PriosSame(s, u, Some(t)) && u.threads[t].prio == mutex.orig
            && if mutex.waiters == [] then
                 u.mutexes[m].owner == None && u.mutexes[m].count == 0 && u.mutexes[m].waiters == [] && WaitsSame(s, u, None)
               else
                 var n := mutex.waiters[0];
                 && n < |s.threads| && n != t && u.threads[n].waits == None && WaitsSame(s, u, Some(n))
                 && u.mutexes[m].owner == Some(n) && u.mutexes[m].count == 1 && u.mutexes[m].waiters == mutex.waiters[1..]
                 && u.mutexes[m].orig == s.threads[n].prio)
      && (code == 0 ==> mutex.count >= 1)
  {
    assert MutexOk(m, s.mutexes[m], s.threads);
    if s.mutexes[m].waiters != [] {
      HeadWaits(s, m);
    }
    hide Structure, Removed;
  }

  /** A waiter whose time is up is off the wait queue, and nobody's priority has changed yet. */
  lemma TimeoutAnswer(s: State, t: nat, m: nat)
    requires Structure(s) && t < |s.threads| && m < |s.mutexes| && s.threads[t].waits == Some(m)
    ensures var u := Timeout(s, t, m);
      && Leaves(s, u, m) && PriosSame(s, u, None) && WaitsSame(s, u, Some(t))
      && u.threads[t].waits.None? && u.threads[t].adjusts == Some(m) && t !in u.mutexes[m].waiters
      && u.mutexes[m] == s.mutexes[m].(waiters := Removed(s.mutexes[m].waiters, t))
  {
    assert Waiting(t, s.threads[t], m, s.mutexes[m]);
    CountIn(s.mutexes[m].waiters, t);
    CountRemoved(s.mutexes[m].waiters, t, t);
    hide Structure, Removed, Count;
    CountIn(Removed(s.mutexes[m].waiters, t), t);
  }

  /**
   The readjustment gives the owner what the mutex recorded, or the better of that and the first waiter's priority, but none better
   than the ceiling.
   */
  lemma AdjustAnswer(s: State, t: nat)
    requires Structure(s) && Enabled(s, DoAdjust(t))
    ensures var m := s.threads[t].adjusts.value;
      var u, mutex, o := Next(s, DoAdjust(t)), s.mutexes[m], s.mutexes[m].owner.value;
      && o < |s.threads| && Leaves(s, u, m) && PriosSame(s, u, Some(o)) && WaitsSame(s, u, None) && u.threads[t].adjusts.None?
      && u.threads[o].prio ==
           (if mutex.waiters == [] then mutex.orig else Worse(s.ceiling, Better(Prio(s.threads, mutex.waiters[0]), mutex.orig)))
      && u.mutexes[m] == mutex.(called := u.mutexes[m].called)
  {
    var m := s.threads[t].adjusts.value;
    assert MutexOk(m, s.mutexes[m], s.threads);
    hide Structure;
  }
}
