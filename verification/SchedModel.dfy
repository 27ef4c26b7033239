/**
 The uniprocessor scheduler (kernel/sched.c) as a state machine.  Threads and wait queues are named by number; every
 section under the scheduler lock is a step, and a thread that blocks does so together with the switch away from it,
 as interrupts stay locked in between.
 */
module SchedModel {
  import opened Lists

  const EBUSY := 16
  const EDEADLK := 45

  /**
   A thread: priority (a lower number is better, negative is cooperative), state bits, the wait queue it is on, whether
   its timeout is active, how often it has locked the scheduler, and its join queue.  History: when it was last queued.
   */
  datatype Thread = Thread(
    prio: int, pending: bool, prestart: bool, dead: bool, suspended: bool, dummy: bool, queued: bool,
    pendedOn: Option<nat>, timer: bool, locked: nat, joinq: nat, stamp: nat)

  datatype State = State(
    threads: seq<Thread>,
    runq: seq<nat>,
    waitqs: seq<seq<nat>>,
    current: nat,
    cache: nat,
    idle: nat,
    stamps: nat)

  predicate Prevented(th: Thread) { th.pending || th.prestart || th.dead || th.dummy || th.suspended }

  predicate Ready(th: Thread) { !Prevented(th) && !th.timer }

  predicate Preemptible(th: Thread) { th.prio >= 0 && th.locked == 0 }

  function Prio(threads: seq<Thread>, t: nat): int { if t < |threads| then threads[t].prio else 0 }

  function Prios(threads: seq<Thread>, list: seq<nat>): (r: seq<int>)
    ensures |r| == |list| && forall i :: 0 <= i < |list| ==> r[i] == Prio(threads, list[i])
  {
    seq(|list|, i requires 0 <= i < |list| => Prio(threads, list[i]))
  }

  // ----- The run queue and the cache -----

  function Queue(s: State, t: nat): State
    requires t < |s.threads|
  {
    s.(threads := s.threads[t := s.threads[t].(queued := true, stamp := s.stamps)],
       runq := InsertAt(s.runq, Rank(Prios(s.threads, s.runq), s.threads[t].prio), t),
       stamps := s.stamps + 1)
  }

  function Dequeue(s: State, t: nat): State
    requires t < |s.threads|
  {
    s.(threads := s.threads[t := s.threads[t].(queued := false)], runq := Removed(s.runq, t))
  }

  /** Take a thread off the run queue if it is there. */
  function Off(s: State, t: nat): State
    requires t < |s.threads|
  {
    if s.threads[t].queued then Dequeue(s, t) else s
  }

  function Best(s: State): nat { if s.runq == [] then s.idle else s.runq[0] }

  predicate MayPreempt(s: State, ok: bool)
    requires s.current < |s.threads|
  {
    ok || Prevented(s.threads[s.current]) || Preemptible(s.threads[s.current])
  }

  function UpdateCache(s: State, ok: bool): State
    requires s.current < |s.threads|
  {
    s.(cache := if MayPreempt(s, ok) then Best(s) else s.current)
  }

  function MakeReady(s: State, t: nat): State
    requires t < |s.threads| && s.current < |s.threads|
  {
    if !s.threads[t].queued && Ready(s.threads[t]) then UpdateCache(Queue(s, t), false) else s
  }

  function Unready(s: State, t: nat): State
    requires t < |s.threads| && s.current < |s.threads|
  {
    UpdateCache(Off(s, t), t == s.current)
  }

  function MoveToEnd(s: State, t: nat): State
    requires t < |s.threads| && s.current < |s.threads|
  {
    UpdateCache(Queue(Off(s, t), t), t == s.current)
  }

  // ----- Wait queues -----

  /** Mark as pending, and go on the wait queue behind those of the same priority. */
  function Join(s: State, t: nat, q: Option<nat>): State
    requires t < |s.threads| && (q.Some? ==> q.value < |s.waitqs|)
  {
    if q.None? then s.(threads := s.threads[t := s.threads[t].(pending := true)])
    else
      var list := s.waitqs[q.value];
      s.(threads := s.threads[t := s.threads[t].(pending := true, pendedOn := q)],
         waitqs := s.waitqs[q.value := InsertAt(list, Rank(Prios(s.threads, list), s.threads[t].prio), t)])
  }

  function SetTimer(s: State, t: nat, on: bool): State
    requires t < |s.threads|
  {
    s.(threads := s.threads[t := s.threads[t].(timer := on)])
  }

  /** Leave the wait queue. */
  function Unpend(s: State, t: nat): State
    requires t < |s.threads|
  {
    var th := s.threads[t];
    if th.pendedOn.None? || th.pendedOn.value >= |s.waitqs| then s
    else
      s.(threads := s.threads[t := th.(pending := false, pendedOn := None)],
         waitqs := s.waitqs[th.pendedOn.value := Removed(s.waitqs[th.pendedOn.value], t)])
  }

  function Pend(s: State, t: nat, q: Option<nat>, timed: bool): State
    requires t < |s.threads| && s.current < |s.threads| && (q.Some? ==> q.value < |s.waitqs|)
  {
    var u := Join(Unready(s, t), t, q);
    if timed then SetTimer(u, t, true) else u
  }

  /** Unpend a thread, stop its timeout and make it ready. */
  function Wake(s: State, t: nat): State
    requires t < |s.threads| && s.current < |s.threads|
  {
    MakeReady(SetTimer(Unpend(s, t), t, false), t)
  }

  function WakeAll(s: State, q: nat): (r: State)
    requires q < |s.waitqs| && s.current < |s.threads|
    ensures |r.threads| == |s.threads| && |r.waitqs| == |s.waitqs| && r.current == s.current && r.idle == s.idle
    decreases |s.waitqs[q]|
  {
    if s.waitqs[q] == [] || s.waitqs[q][0] >= |s.threads| then s
    else
      var u := Wake(s, s.waitqs[q][0]);
      if |u.waitqs[q]| < |s.waitqs[q]| then WakeAll(u, q) else u
  }

  /** The first waiter leaves a wait queue; it is made ready in a later step. */
  function UnpendFirst(s: State, q: nat, stop: bool): State
    requires q < |s.waitqs|
  {
    if s.waitqs[q] == [] || s.waitqs[q][0] >= |s.threads| then s
    else
      var t := s.waitqs[q][0];
      if stop then SetTimer(Unpend(s, t), t, false) else Unpend(s, t)
  }

  // ----- Threads -----

  function Swap(s: State): State { s.(current := s.cache) }

  function Start(s: State, t: nat): State
    requires t < |s.threads| && s.current < |s.threads|
  {
    if !s.threads[t].prestart then s
    else MakeReady(s.(threads := s.threads[t := s.threads[t].(prestart := false)]), t)
  }

  function Suspend(s: State, t: nat): State
    requires t < |s.threads| && s.current < |s.threads|
  {
    var u := Off(SetTimer(s, t, false), t);
    UpdateCache(u.(threads := u.threads[t := u.threads[t].(suspended := true)]), t == s.current)
  }

  function Unsuspend(s: State, t: nat): State
    requires t < |s.threads| && s.current < |s.threads|
  {
    MakeReady(s.(threads := s.threads[t := s.threads[t].(suspended := false)]), t)
  }

  function Resume(s: State, t: nat): State
    requires t < |s.threads| && s.current < |s.threads|
  {
    if s.threads[t].suspended then Unsuspend(s, t) else s
  }

  /** A sleeper is a thread with a timeout, or one whose only state bit is that it is suspended. */
  predicate Asleep(th: Thread) {
    !th.pending && (th.timer || (th.suspended && !th.prestart && !th.dead && !th.dummy && !th.queued))
  }

  function Wakeup(s: State, t: nat): State
    requires t < |s.threads| && s.current < |s.threads|
  {
    if Asleep(s.threads[t]) then Unsuspend(SetTimer(s, t, false), t) else s
  }

  /** The timeout of a thread expires. */
  function Expire(s: State, t: nat): State
    requires t < |s.threads| && s.current < |s.threads|
  {
    if !s.threads[t].timer then s
    else
      var u := SetTimer(s, t, false);
      if s.threads[t].dead then u
      else
        var v := Unpend(u, t);
        MakeReady(v.(threads := v.threads[t := v.threads[t].(prestart := false, suspended := false)]), t)
  }

  function SetPrio(s: State, t: nat, prio: int): State
    requires t < |s.threads| && s.current < |s.threads|
  {
    if Ready(s.threads[t]) then
      var u := Dequeue(s, t);
      UpdateCache(Queue(u.(threads := u.threads[t := u.threads[t].(prio := prio)]), t), true)
    else s.(threads := s.threads[t := s.threads[t].(prio := prio)])
  }

  function Yield(s: State): State
    requires s.current < |s.threads|
  {
    Swap(UpdateCache(Queue(Dequeue(s, s.current), s.current), true))
  }

  function Sleep(s: State): State
    requires s.current < |s.threads|
  {
    var u := SetTimer(Unready(s, s.current), s.current, true);
    Swap(u.(threads := u.threads[s.current := u.threads[s.current].(suspended := true)]))
  }

  function LockSched(s: State): State
    requires s.current < |s.threads|
  {
    s.(threads := s.threads[s.current := s.threads[s.current].(locked := s.threads[s.current].locked + 1)])
  }

  function UnlockSched(s: State): State
    requires s.current < |s.threads|
  {
    var th := s.threads[s.current];
    if th.locked == 0 then s
    else UpdateCache(s.(threads := s.threads[s.current := th.(locked := th.locked - 1)]), false)
  }

  predicate Sliceable(s: State, max: int)
    requires s.current < |s.threads|
  {
    var th := s.threads[s.current];
    Preemptible(th) && !Prevented(th) && th.prio >= max && s.current != s.idle
  }

  /** A slice of time is used up. */
  function Slice(s: State, max: int): State
    requires s.current < |s.threads|
  {
    if Sliceable(s, max) then MoveToEnd(s, s.current) else s
  }

  /** A thread dies: it leaves every queue, and all who join it are released. */
  function Kill(s: State, t: nat): State
    requires t < |s.threads| && s.current < |s.threads| && s.threads[t].joinq < |s.waitqs|
  {
    if s.threads[t].dead then s
    else
      var u := Off(s.(threads := s.threads[t := s.threads[t].(dead := true)]), t);
      var v := SetTimer(Unpend(u, t), t, false);
      UpdateCache(WakeAll(v, s.threads[t].joinq), true)
  }

  /** What joining a thread returns at once, if it does. */
  function JoinCode(s: State, t: nat, noWait: bool): Option<int>
    requires t < |s.threads| && s.current < |s.threads|
  {
    if s.threads[t].dead then Some(0)
    else if noWait then Some(-EBUSY)
    else if t == s.current || s.threads[t].pendedOn == Some(s.threads[s.current].joinq) then Some(-EDEADLK)
    else None
  }

  function JoinThread(s: State, t: nat, noWait: bool, timed: bool): State
    requires t < |s.threads| && s.current < |s.threads| && s.threads[t].joinq < |s.waitqs|
  {
    if JoinCode(s, t, noWait).Some? then s else Swap(Pend(s, s.current, Some(s.threads[t].joinq), timed))
  }

  // ----- Runs -----

  datatype Step =
    | DoReady(t: nat)
    | DoStart(t: nat)
    | DoSuspend(t: nat)
    | DoResume(t: nat)
    | DoWakeup(t: nat)
    | DoExpire(t: nat)
    | DoAbort(t: nat)
    | DoSetPrio(t: nat, prio: int)
    | DoPend(q: Option<nat>, timed: bool)
    | DoPendDummy(t: nat, q: Option<nat>, timed: bool)
    | DoUnpend(t: nat)
    | DoUnpendFirst(wq: nat, stop: bool)
    | DoWake(wq: nat)
    | DoWakeAll(wq: nat)
    | DoYield
    | DoSleep
    | DoLock
    | DoUnlock
    | DoSlice(max: int)
    | DoJoin(t: nat, noWait: bool, timed: bool)
    | DoSwap

  /** The current thread is executing, so it is in the run queue. */
  predicate Acting(s: State)
    requires s.current < |s.threads|
  {
    s.current != s.idle && s.threads[s.current].queued
  }

  /**
   What callers see to: nobody touches the idle thread; only the executing thread blocks, yields or joins; only a dummy
   is pended by another; a priority is not changed between unpending a thread and making it ready.
   */
  predicate Enabled(s: State, step: Step) {
    s.current < |s.threads| &&
    match step
    case DoReady(t) => t < |s.threads| && t != s.idle
    case DoStart(t) => t < |s.threads| && t != s.idle
    case DoSuspend(t) => t < |s.threads| && t != s.idle
    case DoResume(t) => t < |s.threads| && t != s.idle
    case DoWakeup(t) => t < |s.threads| && t != s.idle
    case DoExpire(t) => t < |s.threads| && t != s.idle
    case DoAbort(t) => t < |s.threads| && t != s.idle && s.threads[t].joinq < |s.waitqs|
    case DoSetPrio(t, _) => t < |s.threads| && t != s.idle && (Ready(s.threads[t]) ==> s.threads[t].queued)
    case DoPend(q, _) => Acting(s) && (q.Some? ==> q.value < |s.waitqs|)
    case DoPendDummy(t, q, _) =>
      && t < |s.threads| && t != s.idle && t != s.current
      && s.threads[t].dummy && s.threads[t].pendedOn.None? && !s.threads[t].dead && !s.threads[t].timer
      && (q.Some? ==> q.value < |s.waitqs|)
    case DoUnpend(t) => t < |s.threads| && s.threads[t].pendedOn.Some?
    case DoUnpendFirst(q, _) => q < |s.waitqs|
    case DoWake(q) => q < |s.waitqs|
    case DoWakeAll(q) => q < |s.waitqs|
    case DoYield => Acting(s)
    case DoSleep => Acting(s)
    case DoLock => true
    case DoUnlock => true
    case DoSlice(_) => true
    case DoJoin(t, _, _) => Acting(s) && t < |s.threads| && s.threads[t].joinq < |s.waitqs|
    case DoSwap => true
  }

  function Next(s: State, step: Step): State {
    if !Enabled(s, step) then s else
    match step
    case DoReady(t) => MakeReady(s, t)
    case DoStart(t) => Start(s, t)
    case DoSuspend(t) => Suspend(s, t)
    case DoResume(t) => Resume(s, t)
    case DoWakeup(t) => Wakeup(s, t)
    case DoExpire(t) => Expire(s, t)
    case DoAbort(t) => Kill(s, t)
    case DoSetPrio(t, prio) => SetPrio(s, t, prio)
    case DoPend(q, timed) => Swap(Pend(s, s.current, q, timed))
    case DoPendDummy(t, q, timed) => Pend(s, t, q, timed)
    case DoUnpend(t) => SetTimer(Unpend(s, t), t, false)
    case DoUnpendFirst(q, stop) => UnpendFirst(s, q, stop)
    case DoWake(q) => if s.waitqs[q] == [] || s.waitqs[q][0] >= |s.threads| then s else Wake(s, s.waitqs[q][0])
    case DoWakeAll(q) => WakeAll(s, q)
    case DoYield => Yield(s)
    case DoSleep => Sleep(s)
    case DoLock => LockSched(s)
    case DoUnlock => UnlockSched(s)
    case DoSlice(max) => Slice(s, max)
    case DoJoin(t, noWait, timed) => JoinThread(s, t, noWait, timed)
    case DoSwap => Swap(s)
  }

  function Run(s: State, steps: seq<Step>): State
    decreases |steps|
  {
    if steps == [] then s else Run(Next(s, steps[0]), steps[1..])
  }
}
