/** The scheduler operations of kernel/sched.c on state words and the array run queue, proved against the state machine. */
module SchedSystem {
  import opened Lists
  import opened SchedModel
  import opened SchedRuns
  import opened SchedMemory
  import A = SchedAnswers
  import Deadlines
  import opened Words

  // ----- What the invariant says of single threads -----

  lemma ThreadAt(s: State, t: nat)
    requires Core(s) && t < |s.threads|
    ensures ThreadOk(s.threads[t], |s.waitqs|, s.stamps)
    ensures t in s.runq <==> s.threads[t].queued
  {
    hide Count;
    assert InRunq(t, s.threads[t], s.runq);
    CountIn(s.runq, t);
  }

  lemma Parts(s: State)
    requires Inv(s)
    ensures Core(s) && CurrentOk(s) && s.current < |s.threads|
  {
  }

  // ----- Run queue and cache -----

  /** A new slice begins, with the part of a tick that has already passed not counted. */
  method ResetTimeSlice(k: Memory, elapsed: nat)
    modifies k`sliceTicks
    ensures k.sliceTicks == if k.sliceTime != 0 then k.sliceTime + elapsed else old(k.sliceTicks)
  {
    if k.sliceTime != 0 {
      k.sliceTicks := k.sliceTime + elapsed;
    }
  }

  /** The choice of the next thread; a switch to another one begins a new slice. */
  method RefreshCache(k: Memory, preemptOk: bool, elapsed: nat)
    requires k.Reps() && k.state.current < |k.state.threads|
    modifies k`cache, k`sliceTicks, k`state
    ensures k.Reps() && k.state == UpdateCache(old(k.state), preemptOk)
    ensures k.sliceTicks ==
      if MayPreempt(old(k.state), preemptOk) && Best(old(k.state)) != old(k.state).current && k.sliceTime != 0
      then k.sliceTime + elapsed else old(k.sliceTicks)
  {
    hide Memory.Reps;
    var next := k.NextUp();
    var c := k.Current();
    if preemptOk || k.Stopped(c) || (k.Record(c).prio >= 0 && k.Record(c).locked == 0) {
      if next != c {
        ResetTimeSlice(k, elapsed);
      }
      k.SetCache(next);
    } else {
      k.SetCache(c);
    }
  }

  lemma QueueShape(s: State, t: nat)
    requires t < |s.threads|
    ensures var u := Queue(s, t); |u.threads| == |s.threads| && u.current == s.current
  {
  }

  method ReadyThread(k: Memory, t: nat, elapsed: nat)
    requires k.Reps() && t < |k.state.threads| && k.state.current < |k.state.threads|
    modifies k, k.runq, k.runq.queues
    ensures k.Reps() && k.state == MakeReady(old(k.state), t)
    ensures k.sliceTime == old(k.sliceTime) && k.slicePrio == old(k.slicePrio)
  {
    hide Memory.Reps, Queue;
    QueueShape(k.state, t);
    if !k.StateBit(t, QUEUED) && k.CanRun(t) {
      k.QueueThread(t);
      RefreshCache(k, false, elapsed);
    }
  }

  /** Take a thread off the run queue if it is there. */
  method TakeOffRunq(k: Memory, t: nat)
    requires k.Reps() && t < |k.state.threads| && (k.state.threads[t].queued ==> t in k.state.runq)
    modifies k`records, k`state, k.runq, k.runq.queues
    ensures k.Reps() && k.state == Off(old(k.state), t)
  {
    hide Memory.Reps;
    if k.StateBit(t, QUEUED) {
      k.DequeueThread(t);
    }
  }

  lemma OffShape(s: State, t: nat)
    requires t < |s.threads|
    ensures var u := Off(s, t); |u.threads| == |s.threads| && u.current == s.current && u.waitqs == s.waitqs
    ensures Off(s, t).threads[t].pendedOn == s.threads[t].pendedOn && Off(s, t).threads[t].joinq == s.threads[t].joinq
    ensures Off(s, t).threads[t].prio == s.threads[t].prio
  {
  }

  method UnreadyThread(k: Memory, t: nat, elapsed: nat)
    requires k.Reps() && Core(k.state) && t < |k.state.threads| && k.state.current < |k.state.threads|
    modifies k, k.runq, k.runq.queues
    ensures k.Reps() && k.state == Unready(old(k.state), t)
  {
    hide Memory.Reps, Core, Off;
    ThreadAt(k.state, t);
    OffShape(k.state, t);
    TakeOffRunq(k, t);
    RefreshCache(k, t == k.Current(), elapsed);
  }

  // ----- Wait queues -----

  /** Where a thread goes in a list: the walk compares priorities and stops at the first worse one. */
  method Search(k: Memory, list: seq<nat>, prio: int) returns (p: nat)
    requires k.Reps() && Below(list, |k.state.threads|)
    ensures p == Rank(Prios(k.state.threads, list), prio)
  {
    hide Memory.Reps;
    p := 0;
    while p < |list|
      invariant p <= |list|
      invariant forall i :: 0 <= i < p ==> Prio(k.state.threads, list[i]) <= prio
    {
      if k.Record(list[p]).prio - prio > 0 {
        break;
      }
      p := p + 1;
    }
  }

  /** Only priorities matter for the place. */
  lemma {:induction false} SamePlace(a: seq<Thread>, b: seq<Thread>, list: seq<nat>, prio: int)
    requires |a| == |b| && forall i :: 0 <= i < |a| ==> a[i].prio == b[i].prio
    ensures Rank(Prios(a, list), prio) == Rank(Prios(b, list), prio)
  {
    hide Rank;
    assert Prios(a, list) == Prios(b, list);
  }

  lemma UnreadyShape(s: State, t: nat)
    requires Core(s) && t < |s.threads| && s.current < |s.threads|
    ensures var u := Unready(s, t);
      && |u.threads| == |s.threads| && u.current == s.current && u.waitqs == s.waitqs && u.threads[t].prio == s.threads[t].prio
      && forall q :: 0 <= q < |u.waitqs| ==> Below(u.waitqs[q], |u.threads|)
  {
    hide Removed;
  }

  method AddToWaitq(k: Memory, t: nat, q: Option<nat>, elapsed: nat)
    requires k.Reps() && Core(k.state) && t < |k.state.threads| && k.state.current < |k.state.threads|
    requires q.Some? ==> q.value < |k.state.waitqs|
    modifies k, k.runq, k.runq.queues
    ensures k.Reps() && k.state == Join(Unready(old(k.state), t), t, q)
  {
    hide Memory.Reps, Core, Unready, Rank, InsertAt;
    UnreadyShape(k.state, t);
    UnreadyThread(k, t, elapsed);
    ghost var unready := k.state;
    k.SetStateBit(t, PENDING, true);
    if q.Some? {
      k.SetPendedOn(t, q);
      var p := Search(k, k.Waitq(q.value), k.Record(t).prio);
      SamePlace(unready.threads, k.state.threads, unready.waitqs[q.value], unready.threads[t].prio);
      k.SetWaitq(q.value, InsertAt(k.Waitq(q.value), p, t));
    }
  }

  method UnpendNoTimeout(k: Memory, t: nat)
    requires k.Reps() && t < |k.state.threads| && k.state.threads[t].pendedOn.Some? && k.state.threads[t].pendedOn.value < |k.state.waitqs|
    modifies k`records, k`waitqs, k`state
    ensures k.Reps() && k.state == Unpend(old(k.state), t)
  {
    hide Memory.Reps, Removed;
    var q := k.Record(t).pendedOn.value;
    k.SetWaitq(q, Removed(k.Waitq(q), t));
    k.SetStateBit(t, PENDING, false);
    k.SetPendedOn(t, None);
  }

  method TakeOffWaitq(k: Memory, t: nat)
    requires k.Reps() && t < |k.state.threads|
    requires k.state.threads[t].pendedOn.Some? ==> k.state.threads[t].pendedOn.value < |k.state.waitqs|
    modifies k`records, k`waitqs, k`state
    ensures k.Reps() && k.state == Unpend(old(k.state), t)
  {
    hide Memory.Reps, Removed;
    if k.Record(t).pendedOn.Some? {
      UnpendNoTimeout(k, t);
    }
  }

  method AbortTimeout(k: Memory, t: nat) returns (active: bool)
    requires k.Reps() && t < |k.state.threads|
    modifies k`records, k`state
    ensures k.Reps() && k.state == SetTimer(old(k.state), t, false)
    ensures active == old(k.state).threads[t].timer
  {
    hide Memory.Reps;
    active := k.Record(t).timer;
    k.SetTimer(t, false);
  }

  lemma UnpendShape(s: State, t: nat)
    requires t < |s.threads|
    ensures var u := Unpend(s, t); |u.threads| == |s.threads| && u.current == s.current && |u.waitqs| == |s.waitqs| && u.runq == s.runq
    ensures Unpend(s, t).threads[t].joinq == s.threads[t].joinq && Unpend(s, t).threads[t].queued == s.threads[t].queued
  {
  }

  /** Unpend a thread, stop its timeout and make it ready. */
  method WakeThread(k: Memory, t: nat, elapsed: nat)
    requires k.Reps() && t < |k.state.threads| && k.state.current < |k.state.threads|
    requires k.state.threads[t].pendedOn.Some? ==> k.state.threads[t].pendedOn.value < |k.state.waitqs|
    modifies k, k.runq, k.runq.queues
    ensures k.Reps() && k.state == Wake(old(k.state), t)
  {
    hide Memory.Reps, Unpend, MakeReady;
    UnpendShape(k.state, t);
    TakeOffWaitq(k, t);
    var active := AbortTimeout(k, t);
    ReadyThread(k, t, elapsed);
  }

  lemma WakeIs(s: State, q: nat)
    requires Inv(s) && q < |s.waitqs|
    ensures Inv(Next(s, DoWake(q))) && s.current < |s.threads|
    ensures s.waitqs[q] == [] ==> Next(s, DoWake(q)) == s
    ensures s.waitqs[q] != [] ==>
      var t := s.waitqs[q][0];
      && t < |s.threads| && Next(s, DoWake(q)) == Wake(s, t)
      && (s.threads[t].pendedOn.Some? ==> s.threads[t].pendedOn.value < |s.waitqs|)
  {
    NextInv(s, DoWake(q));
    hide Wake;
    if s.waitqs[q] != [] {
      OnWaitq(s, q);
      ThreadAt(s, s.waitqs[q][0]);
    }
  }

  method WakeFirst(k: Memory, q: nat, elapsed: nat) returns (woken: bool)
    requires k.Reps() && Inv(k.state) && q < |k.state.waitqs|
    modifies k, k.runq, k.runq.queues
    ensures k.Reps() && k.state == Next(old(k.state), DoWake(q)) && Inv(k.state)
    ensures woken == (old(k.state).waitqs[q] != [])
  {
    hide Memory.Reps, Inv, Wake;
    WakeIs(k.state, q);
    woken := false;
    if k.Waitq(q) != [] {
      WakeThread(k, k.Waitq(q)[0], elapsed);
      woken := true;
    }
  }

  lemma WakeShorter(s: State, q: nat)
    requires Core(s) && CurrentOk(s) && q < |s.waitqs| && s.waitqs[q] != []
    ensures s.waitqs[q][0] < |s.threads|
    ensures var u := Wake(s, s.waitqs[q][0]); |u.waitqs| == |s.waitqs| && |u.waitqs[q]| == |s.waitqs[q]| - 1 && u.current == s.current
  {
    OnWaitq(s, q);
    hide Rank, InsertAt;
  }

  lemma WakeStep(s: State, q: nat)
    requires Core(s) && CurrentOk(s) && q < |s.waitqs| && s.waitqs[q] != []
    ensures var t := s.waitqs[q][0];
      && t < |s.threads| && (s.threads[t].pendedOn.Some? ==> s.threads[t].pendedOn.value < |s.waitqs|)
      && var u := Wake(s, t);
         && Core(u) && CurrentOk(u) && WakeAll(u, q) == WakeAll(s, q) && u.current == s.current
         && |u.waitqs| == |s.waitqs| && |u.waitqs[q]| == |s.waitqs[q]| - 1
  {
    OnWaitq(s, q);
    var t := s.waitqs[q][0];
    ThreadAt(s, t);
    WakeHalf(s, t);
    WakeShorter(s, q);
    hide Core, CurrentOk, Wake;
  }

  /** Release everyone on a wait queue, and say whether there was anyone. */
  method UnpendAll(k: Memory, q: nat, elapsed: nat) returns (needSched: bool)
    requires k.Reps() && Core(k.state) && CurrentOk(k.state) && q < |k.state.waitqs|
    modifies k, k.runq, k.runq.queues
    ensures k.Reps() && k.state == WakeAll(old(k.state), q)
    ensures needSched == (old(k.state).waitqs[q] != [])
  {
    hide Memory.Reps, Core, Wake;
    needSched := false;
    while k.Waitq(q) != []
      invariant k.Reps() && Core(k.state) && CurrentOk(k.state) && q < |k.state.waitqs|
      invariant WakeAll(k.state, q) == WakeAll(old(k.state), q)
      invariant needSched || k.state.waitqs[q] == old(k.state).waitqs[q]
      invariant needSched ==> old(k.state).waitqs[q] != []
      decreases |k.state.waitqs[q]|
    {
      WakeStep(k.state, q);
      WakeThread(k, k.Waitq(q)[0], elapsed);
      needSched := true;
    }
  }

  // ----- Thread operations -----

  method StartThread(k: Memory, t: nat, elapsed: nat)
    requires k.Reps() && Inv(k.state) && t < |k.state.threads| && t != k.state.idle
    modifies k, k.runq, k.runq.queues
    ensures k.Reps() && k.state == Start(old(k.state), t) && Inv(k.state)
  {
    hide Memory.Reps, Inv, MakeReady, Core, CurrentOk;
    Parts(k.state);
    StartInv(k.state, t);
    if k.StateBit(t, PRESTART) {
      k.SetStateBit(t, PRESTART, false);
      ReadyThread(k, t, elapsed);
    }
  }

  method SuspendThread(k: Memory, t: nat, elapsed: nat)
    requires k.Reps() && Inv(k.state) && t < |k.state.threads| && t != k.state.idle
    modifies k, k.runq, k.runq.queues
    ensures k.Reps() && k.state == Suspend(old(k.state), t) && Inv(k.state)
  {
    hide Memory.Reps, Inv, Off, Core, CurrentOk;
    Parts(k.state);
    SuspendInv(k.state, t);
    ThreadAt(k.state, t);
    var active := AbortTimeout(k, t);
    OffShape(k.state, t);
    TakeOffRunq(k, t);
    k.SetStateBit(t, SUSPENDED, true);
    RefreshCache(k, t == k.Current(), elapsed);
  }

  method ResumeThread(k: Memory, t: nat, elapsed: nat)
    requires k.Reps() && Inv(k.state) && t < |k.state.threads| && t != k.state.idle
    modifies k, k.runq, k.runq.queues
    ensures k.Reps() && k.state == Resume(old(k.state), t) && Inv(k.state)
  {
    hide Memory.Reps, Inv, MakeReady, Core, CurrentOk;
    Parts(k.state);
    ResumeInv(k.state, t);
    if k.StateBit(t, SUSPENDED) {
      k.SetStateBit(t, SUSPENDED, false);
      ReadyThread(k, t, elapsed);
    }
  }

  /** The state word is compared as a whole. */
  method WakeupThread(k: Memory, t: nat, elapsed: nat)
    requires k.Reps() && Inv(k.state) && t < |k.state.threads| && t != k.state.idle
    modifies k, k.runq, k.runq.queues
    ensures k.Reps() && k.state == Wakeup(old(k.state), t) && Inv(k.state)
  {
    hide Memory.Reps, Inv, MakeReady, Core, CurrentOk;
    Parts(k.state);
    WakeupInv(k.state, t);
    if k.StateBit(t, PENDING) {
      return;
    }
    if !k.Record(t).timer && !k.OnlySuspended(t) {
      return;
    }
    var active := AbortTimeout(k, t);
    k.SetStateBit(t, SUSPENDED, false);
    ReadyThread(k, t, elapsed);
  }

  /** The timeout has been removed from the timeout list when its handler runs. */
  method ThreadTimeout(k: Memory, t: nat, elapsed: nat)
    requires k.Reps() && Inv(k.state) && t < |k.state.threads| && t != k.state.idle && k.state.threads[t].timer
    modifies k, k.runq, k.runq.queues
    ensures k.Reps() && k.state == Expire(old(k.state), t) && Inv(k.state)
  {
    hide Memory.Reps, Inv, MakeReady, Unpend, Core, CurrentOk;
    Parts(k.state);
    ExpireInv(k.state, t);
    ThreadAt(k.state, t);
    var active := AbortTimeout(k, t);
    if !k.StateBit(t, DEAD) {
      UnpendShape(k.state, t);
      TakeOffWaitq(k, t);
      ghost var v := k.state;
      k.SetStateBit(t, PRESTART, false);
      k.SetStateBit(t, SUSPENDED, false);
      assert k.state == v.(threads := v.threads[t := v.threads[t].(prestart := false, suspended := false)]);
      ReadyThread(k, t, elapsed);
    }
  }

  lemma OutOfRunq(s: State, t: nat)
    requires Core(s) && t < |s.threads| && s.threads[t].queued
    ensures t !in Dequeue(s, t).runq && t in s.runq
  {
    hide Count, Removed;
    ThreadAt(s, t);
    DequeueCore(s, t);
    ThreadAt(Dequeue(s, t), t);
  }

  /** The run queue has a list for every priority that may be asked for. */
  method SetPriority(k: Memory, t: nat, prio: int, elapsed: nat) returns (needSched: bool)
    requires k.Reps() && Inv(k.state) && t < |k.state.threads| && t != k.state.idle
    requires Ready(k.state.threads[t]) ==> k.state.threads[t].queued
    requires k.runq.high <= prio < k.runq.high + PQ.QUEUES
    modifies k, k.runq, k.runq.queues
    ensures k.Reps() && k.state == SetPrio(old(k.state), t, prio) && Inv(k.state)
    ensures needSched <==> A.CanRun(old(k.state).threads[t])
    ensures t < |k.state.threads| && k.state.threads[t].prio == prio
  {
    hide Memory.Reps, Inv, Queue, Removed, Core, CurrentOk, A.Stands, A.Becomes;
    A.SetPrioAnswer(k.state, t, prio);
    Parts(k.state);
    SetPrioInv(k.state, t, prio);
    ThreadAt(k.state, t);
    needSched := k.CanRun(t);
    if needSched {
      OutOfRunq(k.state, t);
      k.DequeueThread(t);
      k.SetPrio(t, prio);
      QueueShape(k.state, t);
      k.QueueThread(t);
      RefreshCache(k, true, elapsed);
    } else {
      k.SetPrio(t, prio);
    }
  }

  method YieldCurrent(k: Memory, elapsed: nat)
    requires k.Reps() && Inv(k.state) && Acting(k.state)
    modifies k, k.runq, k.runq.queues
    ensures k.Reps() && k.state == Yield(old(k.state)) && Inv(k.state)
  {
    hide Memory.Reps, Inv, Queue, Removed, Core, CurrentOk;
    Parts(k.state);
    YieldInv(k.state);
    ThreadAt(k.state, k.state.current);
    var c := k.Current();
    k.DequeueThread(c);
    QueueShape(k.state, c);
    k.QueueThread(c);
    RefreshCache(k, true, elapsed);
    k.Switch();
  }

  /** The tick that a sleep is to last until: relative to now, or absolute. */
  function WakeupTick(ticks: int, now: nat): int {
    if Deadlines.TickAbs(ticks) <= 0 then ticks + now else Deadlines.TickAbs(ticks)
  }

  /**
   What a sleep returns when the thread runs again: what is left, from the 32 bits kept of either tick and as a signed number
   of 32 bits.
   */
  function TicksLeft(expected: nat, now: nat): int {
    var d := expected - now % UINT32;
    if d <= 0 then 0 else if d < UINT32 / 2 then d else d - UINT32
  }

  /**
   A sleep until tick `e` that ends at tick `now` returns what is left of it, 0 if nothing is, if and only if: woken before `e`,
   both ticks are in the same period of the 32-bit counter and less than 2^31 apart; otherwise, the counter at `e` is not ahead of
   the counter now.
   */
  lemma TicksLeftExact(e: int, now: nat)
    ensures TicksLeft(e % UINT32, now) == (if now < e then e - now else 0) <==>
      if now < e then e / UINT32 == now / UINT32 && e - now < UINT32 / 2 else e % UINT32 <= now % UINT32
  {
    var d, periods := e % UINT32 - now % UINT32, e / UINT32 - now / UINT32;
    assert e - now == UINT32 * periods + d;
    if now < e && periods != 0 {
      assert periods >= 1;
    }
  }

  /** A sleep of 5 ticks across the wrap-around of the counter, woken at once, returns 0. */
  lemma SleepAcrossWrap()
    ensures WakeupTick(5, UINT32 - 1) == UINT32 + 4 && TicksLeft((UINT32 + 4) % UINT32, UINT32 - 1) == 0
  {
  }

  /** Sleeping for no time is yielding. */
  method TickSleep(k: Memory, ticks: int, now: nat, elapsed: nat) returns (expected: nat)
    requires k.Reps() && Inv(k.state) && Acting(k.state)
    modifies k, k.runq, k.runq.queues
    ensures k.Reps() && k.state == (if ticks == 0 then Yield(old(k.state)) else Sleep(old(k.state))) && Inv(k.state)
    ensures expected == if ticks == 0 then 0 else WakeupTick(ticks, now) % UINT32
  {
    hide Memory.Reps, Inv, Core, Unready, Yield, CurrentOk;
    Parts(k.state);
    SleepInv(k.state);
    UnreadyShape(k.state, k.state.current);
    if ticks == 0 {
      YieldCurrent(k, elapsed);
      return 0;
    }
    expected := WakeupTick(ticks, now) % UINT32;
    var c := k.Current();
    UnreadyThread(k, c, elapsed);
    k.SetTimer(c, true);
    k.SetStateBit(c, SUSPENDED, true);
    k.Switch();
  }

  method PendCurrent(k: Memory, q: Option<nat>, timed: bool, elapsed: nat)
    requires k.Reps() && Inv(k.state) && Acting(k.state) && (q.Some? ==> q.value < |k.state.waitqs|)
    modifies k, k.runq, k.runq.queues
    ensures k.Reps() && k.state == Swap(Pend(old(k.state), old(k.state).current, q, timed)) && Inv(k.state)
  {
    hide Memory.Reps, Inv, Core, Unready, Rank, InsertAt, CurrentOk;
    Parts(k.state);
    PendInv(k.state, q, timed);
    UnreadyShape(k.state, k.state.current);
    var c := k.Current();
    AddToWaitq(k, c, q, elapsed);
    if timed {
      k.SetTimer(c, true);
    }
    k.Switch();
  }

  method LockScheduler(k: Memory)
    requires k.Reps() && Inv(k.state)
    modifies k`records, k`state
    ensures k.Reps() && k.state == LockSched(old(k.state)) && Inv(k.state)
  {
    hide Memory.Reps, Inv, Core, CurrentOk;
    Parts(k.state);
    LockInv(k.state);
    k.SetLocked(k.Current(), k.Record(k.Current()).locked + 1);
  }

  method UnlockScheduler(k: Memory, elapsed: nat)
    requires k.Reps() && Inv(k.state) && k.state.threads[k.state.current].locked != 0
    modifies k
    ensures k.Reps() && k.state == UnlockSched(old(k.state)) && Inv(k.state)
  {
    hide Memory.Reps, Inv, Core, CurrentOk;
    Parts(k.state);
    LockInv(k.state);
    k.SetLocked(k.Current(), k.Record(k.Current()).locked - 1);
    RefreshCache(k, false, elapsed);
  }

  /**
   Some ticks have passed: a thread that has used up its slice goes behind the others of its priority and a new slice begins,
   otherwise the ticks are counted.
   */
  method TimeSlice(k: Memory, ticks: nat, elapsed: nat)
    requires k.Reps() && Inv(k.state)
    modifies k, k.runq, k.runq.queues
    ensures k.Reps() && Inv(k.state) && k.sliceTime == old(k.sliceTime) && k.slicePrio == old(k.slicePrio)
    ensures old(k.state).current < |old(k.state).threads|
    ensures k.state == if k.sliceTime != 0 && ticks >= old(k.sliceTicks) then Slice(old(k.state), k.slicePrio) else old(k.state)
    ensures k.sliceTicks ==
      if k.sliceTime == 0 || !Sliceable(old(k.state), k.slicePrio) then 0
      else if ticks >= old(k.sliceTicks) then k.sliceTime + elapsed
      else old(k.sliceTicks) - ticks
  {
    hide Memory.Reps, Inv, Queue, Off, Core, CurrentOk;
    Parts(k.state);
    SliceInv(k.state, k.slicePrio);
    ThreadAt(k.state, k.state.current);
    var c := k.Current();
    var r := k.Record(c);
    if k.sliceTime != 0 && r.prio >= 0 && r.locked == 0 && !k.Stopped(c) && r.prio >= k.slicePrio && !k.IsIdle(c) {
      if ticks >= k.sliceTicks {
        OffShape(k.state, c);
        TakeOffRunq(k, c);
        QueueShape(k.state, c);
        k.QueueThread(c);
        RefreshCache(k, true, elapsed);
        ResetTimeSlice(k, elapsed);
      } else {
        k.sliceTicks := k.sliceTicks - ticks;
      }
    } else {
      k.sliceTicks := 0;
    }
  }

  lemma DeadParts(s: State, t: nat)
    requires Inv(s) && t < |s.threads| && t != s.idle && !s.threads[t].dead
    ensures s.threads[t].joinq < |s.waitqs| && s.current < |s.threads|
    ensures var d := s.(threads := s.threads[t := s.threads[t].(dead := true)]);
      var v := SetTimer(Unpend(Off(d, t), t), t, false);
      Core(v) && CurrentOk(v) && s.threads[t].joinq < |v.waitqs|
  {
    ThreadAt(s, t);
    DyingHalf(s, t);
  }

  method EndThread(k: Memory, t: nat, elapsed: nat)
    requires k.Reps() && Inv(k.state) && t < |k.state.threads| && t != k.state.idle
    modifies k, k.runq, k.runq.queues
    ensures old(k.state).current < |old(k.state).threads| && old(k.state).threads[t].joinq < |old(k.state).waitqs|
    ensures k.Reps() && k.state == Kill(old(k.state), t) && Inv(k.state)
  {
    hide Memory.Reps, Inv, Core, CurrentOk, WakeAll, Off, Unpend;
    Parts(k.state);
    ThreadAt(k.state, t);
    KillInv(k.state, t);
    if !k.StateBit(t, DEAD) {
      DeadParts(k.state, t);
      k.SetStateBit(t, DEAD, true);
      OffShape(k.state, t);
      TakeOffRunq(k, t);
      UnpendShape(k.state, t);
      TakeOffWaitq(k, t);
      var active := AbortTimeout(k, t);
      var need := UnpendAll(k, k.Record(t).joinq, elapsed);
      RefreshCache(k, true, elapsed);
    }
  }

  /** Join a thread: the code to return at once, or none and the caller is pended. */
  method JoinOn(k: Memory, t: nat, noWait: bool, timed: bool, elapsed: nat) returns (ret: Option<int>)
    requires k.Reps() && Inv(k.state) && Acting(k.state) && t < |k.state.threads| && k.state.threads[t].joinq < |k.state.waitqs|
    modifies k, k.runq, k.runq.queues
    ensures k.Reps() && k.state == JoinThread(old(k.state), t, noWait, timed) && Inv(k.state)
    ensures ret == JoinCode(old(k.state), t, noWait)
  {
    hide Memory.Reps, Inv, Pend, Core, CurrentOk;
    Parts(k.state);
    var c := k.Current();
    if k.StateBit(t, DEAD) {
      ret := Some(0);
    } else if noWait {
      ret := Some(-EBUSY);
    } else if t == c || k.Record(t).pendedOn == Some(k.Record(c).joinq) {
      ret := Some(-EDEADLK);
    } else {
      ret := None;
      PendCurrent(k, Some(k.Record(t).joinq), timed, elapsed);
    }
  }
}
