/**
 Mutexes with priority inheritance (kernel/mutex.c).  Threads and mutexes are named by number; a lower priority number is
 better.  Every section under the lock is a step, so a waiter that times out leaves the wait queue in one step and readjusts the
 owner in a later one.
 */
module MutexModel {
  import opened Lists

  const EPERM := 1
  const EAGAIN := 11
  const EBUSY := 16
  const EINVAL := 22

  /**
   A thread: its priority now, the mutex it waits for, and the mutex for which it has waited in vain and whose owner it has still
   to readjust.  History: the priority it was created with, and the mutexes it owns in the order in which it took them.
   */
  datatype Thread = Thread(prio: int, waits: Option<nat>, adjusts: Option<nat>, base: int, owned: seq<nat>)

  /** A mutex.  History: `called` is what it last called for, recorded, raised or readjusted. */
  datatype Mutex = Mutex(owner: Option<nat>, count: nat, orig: int, called: int, waiters: seq<nat>)

  datatype State = State(ceiling: int, threads: seq<Thread>, mutexes: seq<Mutex>)

  datatype Step = DoLock(t: nat, m: nat, noWait: bool) | DoUnlock(t: nat, m: nat) | DoTimeout(t: nat) | DoAdjust(t: nat)

  function Better(a: int, b: int): int { if a < b then a else b }

  /** The better of two priorities, but none better than the ceiling. */
  function Inherited(ceiling: int, target: int, limit: int): int {
    var p := Better(target, limit);
    if p >= ceiling then p else ceiling
  }

  function Prio(threads: seq<Thread>, t: nat): int { if t < |threads| then threads[t].prio else 0 }

  function Prios(threads: seq<Thread>, list: seq<nat>): (r: seq<int>)
    ensures |r| == |list| && forall i :: 0 <= i < |list| ==> r[i] == Prio(threads, list[i])
  {
    seq(|list|, i requires 0 <= i < |list| => Prio(threads, list[i]))
  }

  function SetPrio(s: State, t: nat, prio: int): State {
    if t < |s.threads| then s.(threads := s.threads[t := s.threads[t].(prio := prio)]) else s
  }

  // ----- Lock -----

  predicate Grants(mutex: Mutex, t: nat) { mutex.count == 0 || mutex.owner == Some(t) }

  /** What locking returns at once, if it does. */
  function LockCode(s: State, t: nat, m: nat, noWait: bool): Option<int>
    requires m < |s.mutexes|
  {
    if Grants(s.mutexes[m], t) then Some(0) else if noWait then Some(-EBUSY) else None
  }

  function Taken(mutex: Mutex, t: nat, prio: int): Mutex {
    if mutex.count == 0 then Mutex(Some(t), 1, prio, prio, mutex.waiters) else mutex.(owner := Some(t), count := mutex.count + 1)
  }

  function Take(s: State, t: nat, m: nat): State
    requires m < |s.mutexes| && t < |s.threads|
  {
    s.(threads := if s.mutexes[m].count == 0 then s.threads[t := s.threads[t].(owned := s.threads[t].owned + [m])] else s.threads,
       mutexes := s.mutexes[m := Taken(s.mutexes[m], t, s.threads[t].prio)])
  }

  /** The owner is raised to the priority of a thread that is about to wait. */
  function Raise(s: State, t: nat, m: nat): State
    requires m < |s.mutexes| && t < |s.threads|
  {
    match s.mutexes[m].owner
    case None => s
    case Some(o) =>
      var p := Inherited(s.ceiling, s.threads[t].prio, Prio(s.threads, o));
      if p < Prio(s.threads, o) then SetPrio(s, o, p) else s
  }

  function Enter(s: State, t: nat, m: nat): State
    requires m < |s.mutexes| && t < |s.threads|
  {
    var mutex := s.mutexes[m];
    s.(threads := s.threads[t := s.threads[t].(waits := Some(m))],
       mutexes := s.mutexes[m := mutex.(
         called := Better(mutex.called, s.threads[t].prio),
         waiters := InsertAt(mutex.waiters, Rank(Prios(s.threads, mutex.waiters), s.threads[t].prio), t))])
  }

  function Lock(s: State, t: nat, m: nat, noWait: bool): State
    requires m < |s.mutexes| && t < |s.threads|
  {
    if Grants(s.mutexes[m], t) then Take(s, t, m)
    else if noWait then s
    else Enter(Raise(s, t, m), t, m)
  }

  // ----- Giving up -----

  /** The priority that the owner should have: the better of its recorded one and the first waiter's. */
  function Due(s: State, m: nat): int
    requires m < |s.mutexes|
  {
    var mutex := s.mutexes[m];
    if mutex.waiters == [] then mutex.orig else Inherited(s.ceiling, Prio(s.threads, mutex.waiters[0]), mutex.orig)
  }

  /** The wait of a thread times out: the scheduler takes it off the wait queue. */
  function Timeout(s: State, t: nat, m: nat): State
    requires m < |s.mutexes| && t < |s.threads|
  {
    s.(threads := s.threads[t := s.threads[t].(waits := None, adjusts := Some(m))],
       mutexes := s.mutexes[m := s.mutexes[m].(waiters := Removed(s.mutexes[m].waiters, t))])
  }

  /** Later the thread readjusts whoever owns the mutex then. */
  function Adjust(s: State, t: nat, m: nat, o: nat): State
    requires m < |s.mutexes| && t < |s.threads|
  {
    var u := s.(threads := s.threads[t := s.threads[t].(adjusts := None)],
                mutexes := s.mutexes[m := s.mutexes[m].(called := Due(s, m))]);
    SetPrio(u, o, Due(s, m))
  }

  // ----- Unlock -----

  function UnlockCode(s: State, t: nat, m: nat): int
    requires m < |s.mutexes|
  {
    if s.mutexes[m].owner.None? then -EINVAL else if s.mutexes[m].owner != Some(t) then -EPERM else 0
  }

  /** The first waiter becomes the owner, holding the mutex once; without one the mutex is free. */
  function HandOff(s: State, m: nat): State
    requires m < |s.mutexes|
  {
    var mutex := s.mutexes[m];
    if mutex.waiters == [] then s.(mutexes := s.mutexes[m := mutex.(owner := None, count := 0)])
    else
      var n := mutex.waiters[0];
      s.(threads := if n < |s.threads| then s.threads[n := s.threads[n].(waits := None, owned := s.threads[n].owned + [m])] else s.threads,
         mutexes := s.mutexes[m := mutex.(
           owner := Some(n), orig := Prio(s.threads, n), called := Prio(s.threads, n), waiters := mutex.waiters[1..])])
  }

  /** The last unlock gives back the recorded priority. */
  function Restore(s: State, t: nat, m: nat): State
    requires m < |s.mutexes| && t < |s.threads|
  {
    s.(threads := s.threads[t := s.threads[t].(prio := s.mutexes[m].orig, owned := Removed(s.threads[t].owned, m))])
  }

  function Unlock(s: State, t: nat, m: nat): State
    requires m < |s.mutexes| && t < |s.threads|
  {
    if UnlockCode(s, t, m) != 0 then s
    else if s.mutexes[m].count > 1 then s.(mutexes := s.mutexes[m := s.mutexes[m].(count := s.mutexes[m].count - 1)])
    else HandOff(Restore(s, t, m), m)
  }

  // ----- Runs -----

  /**
   A thread that waits does nothing until it is served or times out, and then it readjusts the owner first.  Without an owner
   the readjustment is undefined: the code follows a null pointer.
   */
  predicate Enabled(s: State, step: Step) {
    match step
    case DoLock(t, m, _) => t < |s.threads| && m < |s.mutexes| && s.threads[t].waits.None? && s.threads[t].adjusts.None?
    case DoUnlock(t, m) => t < |s.threads| && m < |s.mutexes| && s.threads[t].waits.None? && s.threads[t].adjusts.None?
    case DoTimeout(t) => t < |s.threads| && s.threads[t].waits.Some? && s.threads[t].waits.value < |s.mutexes|
    case DoAdjust(t) =>
      && t < |s.threads| && s.threads[t].adjusts.Some? && s.threads[t].adjusts.value < |s.mutexes|
      && s.mutexes[s.threads[t].adjusts.value].owner.Some?
  }

  function Next(s: State, step: Step): State {
    if !Enabled(s, step) then s else
    match step
    case DoLock(t, m, noWait) => Lock(s, t, m, noWait)
    case DoUnlock(t, m) => Unlock(s, t, m)
    case DoTimeout(t) => Timeout(s, t, s.threads[t].waits.value)
    case DoAdjust(t) => Adjust(s, t, s.threads[t].adjusts.value, s.mutexes[s.threads[t].adjusts.value].owner.value)
  }

  function Run(s: State, steps: seq<Step>): State
    decreases |steps|
  {
    if steps == [] then s else Run(Next(s, steps[0]), steps[1..])
  }

  ghost predicate Initial(s: State) {
    && (forall t :: 0 <= t < |s.threads| ==> 
          s.threads[t].waits.None? && s.threads[t].adjusts.None? && s.threads[t].prio == s.threads[t].base && s.threads[t].owned == [])
    && (forall m :: 0 <= m < |s.mutexes| ==> s.mutexes[m].owner.None? && s.mutexes[m].count == 0 && s.mutexes[m].waiters == [])
  }
}
