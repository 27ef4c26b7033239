/**
 The mutex operations of kernel/mutex.c on thread and mutex objects that point to each other, proved against the state machine.
 */
module MutexSystem {
  import opened Lists
  import opened MutexModel
  import opened MutexRuns

  // ----- Objects -----

  class MutexObject {
    var owner: ThreadObject?
    var lockCount: nat
    var origPrio: int
    var waiters: seq<ThreadObject>

    constructor ()
      ensures owner == null && lockCount == 0 && origPrio == 0 && waiters == []
    {
      owner, lockCount, origPrio, waiters := null, 0, 0, [];
    }
  }

  class ThreadObject {
    var prio: int
    var pendedOn: MutexObject?

    constructor (prio: int)
      ensures this.prio == prio && pendedOn == null
    {
      this.prio, pendedOn := prio, null;
    }
  }

  /** A pointer is what a number says: null for none. */
  ghost predicate OwnerRep(threads: seq<ThreadObject>, x: ThreadObject?, o: Option<nat>) {
    if o.None? then x == null else o.value < |threads| && x == threads[o.value]
  }

  ghost predicate PendedRep(mutexes: seq<MutexObject>, x: MutexObject?, m: Option<nat>) {
    if m.None? then x == null else m.value < |mutexes| && x == mutexes[m.value]
  }

  ghost predicate ListRep(threads: seq<ThreadObject>, waiters: seq<ThreadObject>, list: seq<nat>) {
    |waiters| == |list| && forall i :: 0 <= i < |list| ==> list[i] < |threads| && waiters[i] == threads[list[i]]
  }

  ghost predicate ThreadRep(mutexes: seq<MutexObject>, x: ThreadObject, th: Thread)
    reads x
  {
    x.prio == th.prio && PendedRep(mutexes, x.pendedOn, th.waits)
  }

  ghost predicate MutexRep(threads: seq<ThreadObject>, x: MutexObject, mutex: Mutex)
    reads x
  {
    && OwnerRep(threads, x.owner, mutex.owner) && x.lockCount == mutex.count && x.origPrio == mutex.orig
    && ListRep(threads, x.waiters, mutex.waiters)
  }

  // ----- The memory -----

  class Memory {
    const ceiling: int
    const threads: seq<ThreadObject>
    const mutexes: seq<MutexObject>
    ghost var state: State

    ghost predicate Reps()
      reads this, threads, mutexes
    {
      && AllDifferent(threads) && AllDifferent(mutexes) && state.ceiling == ceiling
      && |state.threads| == |threads| && |state.mutexes| == |mutexes|
      && (forall t :: 0 <= t < |threads| ==> ThreadRep(mutexes, threads[t], state.threads[t]))
      && (forall m :: 0 <= m < |mutexes| ==> MutexRep(threads, mutexes[m], state.mutexes[m]))
    }

    constructor (ceiling: int, threads: seq<ThreadObject>, mutexes: seq<MutexObject>)
      requires AllDifferent(threads) && AllDifferent(mutexes)
      requires forall t :: 0 <= t < |threads| ==> threads[t].pendedOn == null
      requires forall m :: 0 <= m < |mutexes| ==> mutexes[m].owner == null && mutexes[m].lockCount == 0 && mutexes[m].waiters == []
      ensures Reps() && Initial(state) && this.ceiling == ceiling && this.threads == threads && this.mutexes == mutexes
      ensures |state.threads| == |threads| && forall t :: 0 <= t < |threads| ==> state.threads[t].base == threads[t].prio
    {
      this.ceiling, this.threads, this.mutexes := ceiling, threads, mutexes;
      state := State(ceiling, seq(|threads|, t reads threads requires 0 <= t < |threads| => Thread(threads[t].prio, None, None, threads[t].prio, [])),
                     seq(|mutexes|, m reads mutexes requires 0 <= m < |mutexes| => Mutex(None, 0, mutexes[m].origPrio, mutexes[m].origPrio, [])));
    }

    /** `x` is thread number `t`. */
    ghost predicate IsThread(x: ThreadObject, t: nat) { t < |threads| && threads[t] == x }

    ghost predicate IsMutex(x: MutexObject, m: nat) { m < |mutexes| && mutexes[m] == x }
  }

  /** Change the owner's priority if it is another one. */
  method AdjustOwner(k: Memory, mx: MutexObject, prio: int, ghost m: nat)
    requires k.Reps() && k.IsMutex(mx, m) && mx.owner != null
    modifies k`state, k.threads
    ensures k.Reps() && k.state.mutexes[m].owner.Some? && k.state == SetPrio(old(k.state), k.state.mutexes[m].owner.value, prio)
  {
    hide ListRep;
    assert MutexRep(k.threads, mx, k.state.mutexes[m]);
    ghost var o := k.state.mutexes[m].owner.value;
    if mx.owner.prio != prio {
      mx.owner.prio := prio;
    }
    k.state := SetPrio(k.state, o, prio);
  }

  /** Waiting threads are ranked as the state machine ranks them. */
  lemma Ranked(k: Memory, mx: MutexObject, m: nat, i: nat)
    requires k.Reps() && k.IsMutex(mx, m) && i < |mx.waiters|
    ensures i < |k.state.mutexes[m].waiters| && mx.waiters[i].prio == Prio(k.state.threads, k.state.mutexes[m].waiters[i])
  {
    assert MutexRep(k.threads, mx, k.state.mutexes[m]);
    assert ThreadRep(k.mutexes, k.threads[k.state.mutexes[m].waiters[i]], k.state.threads[k.state.mutexes[m].waiters[i]]);
  }

  /** The walk along the wait queue stops at the first thread with a worse priority. */
  method Search(k: Memory, mx: MutexObject, prio: int, ghost m: nat) returns (p: nat)
    requires k.Reps() && k.IsMutex(mx, m)
    ensures p <= |mx.waiters| && p == Rank(Prios(k.state.threads, k.state.mutexes[m].waiters), prio)
  {
    ghost var list := k.state.mutexes[m].waiters;
    assert MutexRep(k.threads, mx, k.state.mutexes[m]);
    hide Memory.Reps;
    p := 0;
    while p < |mx.waiters| && mx.waiters[p].prio <= prio
      invariant p <= |mx.waiters|
      invariant forall i :: 0 <= i < p ==> Prio(k.state.threads, list[i]) <= prio
    {
      Ranked(k, mx, m, p);
      p := p + 1;
    }
    if p < |mx.waiters| {
      Ranked(k, mx, m, p);
    }
  }

  /** The caller goes on the wait queue, behind those of its priority. */
  method Pend(k: Memory, x: ThreadObject, mx: MutexObject, ghost t: nat, ghost m: nat)
    requires k.Reps() && k.IsThread(x, t) && k.IsMutex(mx, m)
    modifies k`state, x`pendedOn, mx`waiters
    ensures k.Reps() && k.state == Enter(old(k.state), t, m)
  {
    hide Rank, InsertAt;
    assert MutexRep(k.threads, mx, k.state.mutexes[m]) && ThreadRep(k.mutexes, x, k.state.threads[t]);
    var p := Search(k, mx, x.prio, m);
    mx.waiters := InsertAt(mx.waiters, p, x);
    x.pendedOn := mx;
    k.state := Enter(k.state, t, m);
  }

  lemma OwnerIs(k: Memory, x: ThreadObject, mx: MutexObject, t: nat, m: nat)
    requires k.Reps() && Structure(k.state) && k.IsThread(x, t) && k.IsMutex(mx, m)
    ensures mx.owner == x <==> k.state.mutexes[m].owner == Some(t)
    ensures mx.owner == null <==> k.state.mutexes[m].owner.None?
    ensures mx.lockCount == k.state.mutexes[m].count && mx.origPrio == k.state.mutexes[m].orig
    ensures mx.lockCount == 0 <==> mx.owner == null
    ensures x.prio == k.state.threads[t].prio
    ensures mx.owner != null ==>
      var o := k.state.mutexes[m].owner.value;
      o < |k.threads| && mx.owner == k.threads[o] && mx.owner.prio == Prio(k.state.threads, o)
  {
    assert MutexRep(k.threads, mx, k.state.mutexes[m]);
    assert ThreadRep(k.mutexes, x, k.state.threads[t]);
    assert MutexOk(m, k.state.mutexes[m], k.state.threads);
    if mx.owner != null {
      var o := k.state.mutexes[m].owner.value;
      assert ThreadRep(k.mutexes, k.threads[o], k.state.threads[o]);
    }
  }

  lemma CeilingIs(k: Memory)
    requires k.Reps()
    ensures k.state.ceiling == k.ceiling && |k.state.threads| == |k.threads| && |k.state.mutexes| == |k.mutexes|
  {
  }

  method Grant(k: Memory, x: ThreadObject, mx: MutexObject, ghost t: nat, ghost m: nat)
    requires k.Reps() && k.IsThread(x, t) && k.IsMutex(mx, m)
    modifies k`state, mx
    ensures k.Reps() && k.state == Take(old(k.state), t, m)
  {
    hide ListRep;
    assert MutexRep(k.threads, mx, k.state.mutexes[m]) && ThreadRep(k.mutexes, x, k.state.threads[t]);
    mx.origPrio := if mx.lockCount == 0 then x.prio else mx.origPrio;
    mx.lockCount := mx.lockCount + 1;
    mx.owner := x;
    k.state := Take(k.state, t, m);
  }

  /** Lock: the code to return at once, or none and the caller waits. */
  method LockMutex(k: Memory, x: ThreadObject, mx: MutexObject, noWait: bool, ghost t: nat, ghost m: nat) returns (ret: Option<int>)
    requires k.Reps() && Structure(k.state) && k.IsThread(x, t) && k.IsMutex(mx, m) && Enabled(k.state, DoLock(t, m, noWait))
    modifies k`state, k.threads, k.mutexes
    ensures k.Reps() && k.state == Lock(old(k.state), t, m, noWait) && Structure(k.state)
    ensures ret == LockCode(old(k.state), t, m, noWait)
  {
    LockStructure(k.state, t, m, noWait);
    OwnerIs(k, x, mx, t, m);
    hide Structure, Memory.Reps, Rank, Take;
    if mx.lockCount == 0 || mx.owner == x {
      Grant(k, x, mx, t, m);
      return Some(0);
    }
    if noWait {
      return Some(-EBUSY);
    }
    CeilingIs(k);
    var prio := Inherited(k.ceiling, x.prio, mx.owner.prio);
    if prio < mx.owner.prio {
      AdjustOwner(k, mx, prio, m);
    }
    assert k.state == Raise(old(k.state), t, m);
    Pend(k, x, mx, t, m);
    ret := None;
  }

  /** Only the first waiter counts for the owner. */
  lemma FirstIs(k: Memory, mx: MutexObject, m: nat)
    requires k.Reps() && k.IsMutex(mx, m)
    ensures |mx.waiters| == |k.state.mutexes[m].waiters|
    ensures mx.waiters != [] ==>
      var n := k.state.mutexes[m].waiters[0];
      n < |k.threads| && mx.waiters[0] == k.threads[n] && mx.waiters[0].prio == Prio(k.state.threads, n)
  {
    assert MutexRep(k.threads, mx, k.state.mutexes[m]);
    if mx.waiters != [] {
      Ranked(k, mx, m, 0);
    }
  }

  lemma {:induction false} SameFind(threads: seq<ThreadObject>, waiters: seq<ThreadObject>, list: seq<nat>, t: nat)
    requires AllDifferent(threads) && ListRep(threads, waiters, list) && t < |threads|
    ensures Find(waiters, threads[t]) == Find(list, t)
  {
    if list != [] {
      SameFind(threads, waiters[1..], list[1..], t);
    }
  }

  /** The scheduler takes a thread off the wait queue when its time is up. */
  method Unpend(k: Memory, x: ThreadObject, mx: MutexObject, ghost t: nat, ghost m: nat)
    requires k.Reps() && Structure(k.state) && k.IsThread(x, t) && k.IsMutex(mx, m) && k.state.threads[t].waits == Some(m)
    modifies k`state, x`pendedOn, mx`waiters
    ensures k.Reps() && k.state == Timeout(old(k.state), t, m) && Structure(k.state)
  {
    hide Find, Structure;
    TimeoutStructure(k.state, t, m);
    assert MutexRep(k.threads, mx, k.state.mutexes[m]);
    SameFind(k.threads, mx.waiters, k.state.mutexes[m].waiters, t);
    var p := Find(mx.waiters, x);
    if p < |mx.waiters| {
      mx.waiters := RemoveAt(mx.waiters, p);
    }
    x.pendedOn := null;
    k.state := Timeout(k.state, t, m);
  }

  /** The thread that waited in vain runs again and readjusts the owner, if there is one. */
  method LockTimedOut(k: Memory, mx: MutexObject, ghost t: nat, ghost m: nat) returns (ret: int)
    requires k.Reps() && Structure(k.state) && k.IsMutex(mx, m) && Enabled(k.state, DoAdjust(t)) && k.state.threads[t].adjusts == Some(m)
    modifies k`state, k.threads
    ensures k.Reps() && k.state == Next(old(k.state), DoAdjust(t)) && Structure(k.state)
    ensures ret == -EAGAIN
  {
    ghost var s := k.state;
    ghost var o := s.mutexes[m].owner.value;
    AdjustStructure(s, t, m, o);
    OwnerIs(k, k.threads[t], mx, t, m);
    FirstIs(k, mx, m);
    CeilingIs(k);
    hide Structure;
    var prio := mx.origPrio;
    if mx.waiters != [] {
      prio := Inherited(k.ceiling, mx.waiters[0].prio, mx.origPrio);
    }
    assert prio == Due(s, m);
    k.state := s.(threads := s.threads[t := s.threads[t].(adjusts := None)], mutexes := s.mutexes[m := s.mutexes[m].(called := prio)]);
    assert k.Reps();
    hide Memory.Reps, Due;
    AdjustOwner(k, mx, prio, m);
    ret := -EAGAIN;
  }

  /** The first waiter leaves the wait queue and is the owner; without one the mutex is free. */
  method HandOver(k: Memory, mx: MutexObject, ghost m: nat)
    requires k.Reps() && k.IsMutex(mx, m)
    modifies k`state, k.threads, mx
    ensures k.Reps() && k.state == HandOff(old(k.state), m)
  {
    FirstIs(k, mx, m);
    assert MutexRep(k.threads, mx, k.state.mutexes[m]);
    if mx.waiters != [] {
      var n := mx.waiters[0];
      mx.waiters := mx.waiters[1..];
      n.pendedOn := null;
      mx.owner := n;
      mx.origPrio := n.prio;
    } else {
      mx.owner := null;
      mx.lockCount := 0;
    }
    k.state := HandOff(k.state, m);
  }

  method UnlockMutex(k: Memory, x: ThreadObject, mx: MutexObject, ghost t: nat, ghost m: nat) returns (ret: int)
    requires k.Reps() && Structure(k.state) && k.IsThread(x, t) && k.IsMutex(mx, m) && Enabled(k.state, DoUnlock(t, m))
    modifies k`state, k.threads, k.mutexes
    ensures k.Reps() && k.state == Unlock(old(k.state), t, m) && Structure(k.state)
    ensures ret == UnlockCode(old(k.state), t, m)
  {
    UnlockStructure(k.state, t, m);
    OwnerIs(k, x, mx, t, m);
    hide Structure;
    if mx.owner == null {
      return -EINVAL;
    }
    if mx.owner != x {
      return -EPERM;
    }
    if mx.lockCount > 1 {
      mx.lockCount := mx.lockCount - 1;
      k.state := Unlock(k.state, t, m);
      return 0;
    }
    AdjustOwner(k, mx, mx.origPrio, m);
    k.state := Restore(old(k.state), t, m);
    hide Memory.Reps, HandOff;
    HandOver(k, mx, m);
    ret := 0;
  }
}
