/**
 Work queues (kernel/work.c) as a state machine: every critical section under the work lock is one step on the whole
 state.  Work items, queues, flushers and canceller records are named by number.
 */
module WorkModel {
  import opened Lists

  const EBUSY := 16
  const ENODEV := 19
  const EINVAL := 22
  const EALREADY := 120

  /** What the pending list of a queue holds. */
  datatype Node = Work(w: nat) | Flusher(f: nat)

  /**
   A work item: its flags, the queue it was last submitted to and, when delayable, where it goes on expiry and whether
   its timeout is linked.  History: `submits` counts accepted submissions, so it numbers the instances of the item;
   `runs` is the instance that a handler was last started for.
   */
  datatype Item = Item(
    delayable: bool, running: bool, canceling: bool, queued: bool, delayed: bool,
    queue: Option<nat>, delayQueue: Option<nat>, linked: bool, submits: nat, runs: nat)

  /** A queue: flags, pending list, what its thread is handling, whether that thread sleeps on notifyq, and drainq. */
  datatype WorkQ = WorkQ(
    started: bool, busy: bool, drain: bool, plugged: bool, asleep: bool,
    pending: seq<Node>, current: Option<Node>, drainers: seq<nat>)

  /** A flusher put on `queue` behind the instances of `work` up to `upto`: where it is, and whether its semaphore was given. */
  datatype Flush = Flush(work: nat, queue: nat, upto: nat, waiting: bool, running: bool, given: bool)

  datatype Canceller = Canceller(id: nat, work: nat)

  datatype State = State(
    items: seq<Item>,
    queues: seq<WorkQ>,
    cancels: seq<Canceller>,
    signalled: seq<nat>,
    cancelIds: nat,
    flushes: seq<Flush>)

  datatype Delay = NoWait | After | Forever

  datatype Step =
    | DoSubmit(w: nat, target: Option<nat>, caller: Option<nat>)
    | DoFlush(w: nat)
    | DoCancel(w: nat)
    | DoCancelSync(w: nat)
    | DoSchedule(w: nat, target: Option<nat>, delay: Delay, caller: Option<nat>)
    | DoReschedule(w: nat, target: Option<nat>, delay: Delay, caller: Option<nat>)
    | DoExpire(w: nat)
    | DoCancelDelayable(w: nat)
    | DoCancelDelayableSync(w: nat)
    | DoFlushDelayable(w: nat, caller: Option<nat>)
    | DoLook(q: nat)
    | DoHandle(q: nat)
    | DoEnd(q: nat)
    | DoStart(q: nat)
    | DoDrain(q: nat, plug: bool, thread: nat)
    | DoUnplug(q: nat)

  // ----- Pending lists -----

  /** `b` occurs, and `a` occurs before it. */
  predicate Before(list: seq<Node>, a: Node, b: Node) {
    list != [] && if list[0] == a then b in list[1..] else list[0] != b && Before(list[1..], a, b)
  }

  // ----- Submission -----

  /** The busy mask of an item. */
  function Busy(it: Item): int {
    (if it.running then 1 else 0) + (if it.canceling then 2 else 0) + (if it.queued then 4 else 0) + (if it.delayed then 8 else 0)
  }

  /** Whether a queue takes a submission: 1, or why not. */
  function Accepts(queue: WorkQ, chained: bool): int {
    if !queue.started then -ENODEV
    else if queue.drain && !chained then -EBUSY
    else if queue.plugged && !queue.drain then -EBUSY
    else 1
  }

  /** The item is the last pending one, and the thread is awake. */
  function Listed(s: State, w: nat, q: nat): (u: State)
    requires q < |s.queues|
    ensures u.items == s.items
  {
    s.(queues := s.queues[q := s.queues[q].(pending := s.queues[q].pending + [Work(w)], asleep := false)])
  }

  function Enqueue(s: State, w: nat, q: nat): State
    requires w < |s.items| && q < |s.queues|
  {
    var it := s.items[w];
    Listed(s, w, q).(items := s.items[w := it.(queued := true, queue := Some(q), submits := it.submits + 1)])
  }

  /** The queue that a submission goes to: where the item runs, else the one asked for, else the last one. */
  function Target(it: Item, target: Option<nat>): Option<nat> {
    if it.running || target.None? then it.queue else target
  }

  /** `caller` is the queue whose thread submits, if any. */
  function QueueCode(s: State, target: Option<nat>, caller: Option<nat>): (rc: int)
    ensures rc == 1 || rc < 0
    ensures rc == 1 ==> target.Some? && target.value < |s.queues|
  {
    if target.None? || target.value >= |s.queues| then -EINVAL else Accepts(s.queues[target.value], caller == target)
  }

  function SubmitCode(s: State, w: nat, target: Option<nat>, caller: Option<nat>): int
    requires w < |s.items|
  {
    var it := s.items[w];
    var t := Target(it, target);
    if it.canceling then -EBUSY
    else if it.queued then 0
    else
      var rc := QueueCode(s, t, caller);
      if rc < 0 then rc else if it.running then 2 else 1
  }

  function Submit(s: State, w: nat, target: Option<nat>, caller: Option<nat>): State
    requires w < |s.items|
  {
    if SubmitCode(s, w, target, caller) > 0 then Enqueue(s, w, Target(s.items[w], target).value) else s
  }

  // ----- Flush -----

  function AddFlusher(s: State, w: nat, q: nat): State
    requires w < |s.items| && q < |s.queues|
  {
    var queue := s.queues[q];
    var p := Find(queue.pending, Work(w));
    var f := |s.flushes|;
    s.(queues := s.queues[q := queue.(
         pending := InsertAt(queue.pending, if p < |queue.pending| then p + 1 else 0, Flusher(f)), asleep := false)],
       flushes := s.flushes + [Flush(w, q, s.items[w].submits, true, false, false)])
  }

  predicate NeedsFlush(it: Item) { it.queued || it.running }

  function FlushWork(s: State, w: nat): State
    requires w < |s.items|
  {
    var it := s.items[w];
    if NeedsFlush(it) && it.queue.Some? && it.queue.value < |s.queues| then AddFlusher(s, w, it.queue.value) else s
  }

  // ----- Cancel -----

  function Dequeue(s: State, w: nat): State
    requires w < |s.items|
  {
    var it := s.items[w];
    if it.queued && it.queue.Some? && it.queue.value < |s.queues| then
      var q := it.queue.value;
      s.(items := s.items[w := it.(queued := false)],
         queues := s.queues[q := s.queues[q].(pending := Removed(s.queues[q].pending, Work(w)))])
    else s
  }

  /** An item that is still busy after it has left its queue becomes canceling. */
  function MarkCanceling(s: State, w: nat): State
    requires w < |s.items|
  {
    var it := s.items[w];
    if Busy(it) != 0 then s.(items := s.items[w := it.(canceling := true)]) else s
  }

  function CancelAsync(s: State, w: nat): State
    requires w < |s.items|
  {
    MarkCanceling(if s.items[w].canceling then s else Dequeue(s, w), w)
  }

  /** A thread that must wait for the handler leaves a record. */
  function Await(s: State, w: nat): State
    requires w < |s.items|
  {
    if s.items[w].canceling then
      s.(cancels := s.cancels + [Canceller(s.cancelIds, w)], cancelIds := s.cancelIds + 1)
    else s
  }

  function CancelSync(s: State, w: nat): State
    requires w < |s.items|
  {
    if Busy(s.items[w]) != 0 then Await(CancelAsync(s, w), w) else s
  }

  // ----- Delayable work -----

  /** Arming with no end never links the timeout (kernel/timeout.c), yet the item counts as delayed. */
  function Arm(s: State, w: nat, target: Option<nat>, delay: Delay): State
    requires w < |s.items|
  {
    var it := s.items[w];
    s.(items := s.items[w := it.(delayed := true, delayQueue := target, linked := it.linked || delay.After?)])
  }

  function ScheduleFor(s: State, w: nat, target: Option<nat>, delay: Delay, caller: Option<nat>): State
    requires w < |s.items|
  {
    if delay.NoWait? then Submit(s, w, target, caller) else Arm(s, w, target, delay)
  }

  function ScheduleForCode(s: State, w: nat, target: Option<nat>, delay: Delay, caller: Option<nat>): int
    requires w < |s.items|
  {
    if delay.NoWait? then SubmitCode(s, w, target, caller) else 1
  }

  function Schedule(s: State, w: nat, target: Option<nat>, delay: Delay, caller: Option<nat>): State
    requires w < |s.items|
  {
    var it := s.items[w];
    if it.canceling || it.queued || it.delayed then s else ScheduleFor(s, w, target, delay, caller)
  }

  function Unschedule(s: State, w: nat): State
    requires w < |s.items|
  {
    if s.items[w].delayed then s.(items := s.items[w := s.items[w].(delayed := false, linked := false)]) else s
  }

  function Reschedule(s: State, w: nat, target: Option<nat>, delay: Delay, caller: Option<nat>): State
    requires w < |s.items|
  {
    ScheduleFor(Unschedule(s, w), w, target, delay, caller)
  }

  /** The timeout of a delayable item expires, in interrupt context. */
  function Expire(s: State, w: nat): State
    requires w < |s.items|
  {
    if !s.items[w].linked then s
    else if s.items[w].delayed then Submit(Unschedule(s, w), w, s.items[w].delayQueue, None)
    else s.(items := s.items[w := s.items[w].(linked := false)])
  }

  function CancelDelayable(s: State, w: nat): State
    requires w < |s.items|
  {
    CancelAsync(Unschedule(s, w), w)
  }

  function CancelDelayableSync(s: State, w: nat): State
    requires w < |s.items|
  {
    if Busy(s.items[w]) != 0 then Await(CancelDelayable(s, w), w) else s
  }

  function FlushDelayable(s: State, w: nat, caller: Option<nat>): State
    requires w < |s.items|
  {
    if Busy(s.items[w]) == 0 then s
    else if s.items[w].delayed then FlushWork(Submit(Unschedule(s, w), w, s.items[w].delayQueue, caller), w)
    else FlushWork(s, w)
  }

  // ----- The thread of a queue -----

  /** The thread takes the first pending node. */
  function Take(s: State, q: nat): State
    requires q < |s.queues| && s.queues[q].pending != []
  {
    var queue := s.queues[q];
    var n := queue.pending[0];
    var t := s.(queues := s.queues[q := queue.(busy := true, pending := queue.pending[1..], current := Some(n))]);
    match n
    case Work(w) =>
      if w < |s.items| then
        t.(items := s.items[w := s.items[w].(running := true, queued := false, runs := s.items[w].submits)])
      else t
    case Flusher(f) =>
      if f < |s.flushes| then t.(flushes := s.flushes[f := s.flushes[f].(waiting := false, running := true)]) else t
  }

  /** With nothing pending the thread ends a drain, releasing who waits for it, and sleeps. */
  function Rest(queue: WorkQ): WorkQ {
    if queue.drain then queue.(drain := false, drainers := [], asleep := true) else queue.(asleep := true)
  }

  /** The thread, awake and between handlers, looks for work. */
  function Look(s: State, q: nat): State
    requires q < |s.queues|
  {
    var queue := s.queues[q];
    if !queue.started || queue.asleep || queue.current.Some? then s
    else if queue.pending != [] then Take(s, q)
    else s.(queues := s.queues[q := Rest(queue)])
  }

  /** The handler of a flusher gives the semaphore. */
  function Handle(s: State, q: nat): State
    requires q < |s.queues|
  {
    match s.queues[q].current
    case Some(Flusher(f)) => if f < |s.flushes| then s.(flushes := s.flushes[f := s.flushes[f].(given := true)]) else s
    case _ => s
  }

  function Ids(cs: seq<Canceller>): (r: seq<nat>)
    ensures |r| == |cs| && forall i :: 0 <= i < |cs| ==> r[i] == cs[i].id
  {
    seq(|cs|, i requires 0 <= i < |cs| => cs[i].id)
  }

  function Without(cs: seq<Canceller>, w: nat): seq<Canceller> {
    if cs == [] then [] else if cs[0].work == w then Without(cs[1..], w) else [cs[0]] + Without(cs[1..], w)
  }

  function IdsFor(cs: seq<Canceller>, w: nat): seq<nat> {
    if cs == [] then [] else if cs[0].work == w then [cs[0].id] + IdsFor(cs[1..], w) else IdsFor(cs[1..], w)
  }

  /** Cancellation is complete: every thread that waits for this item is signalled. */
  function Finalize(s: State, w: nat): State
    requires w < |s.items|
  {
    s.(items := s.items[w := s.items[w].(canceling := false)],
       cancels := Without(s.cancels, w),
       signalled := s.signalled + IdsFor(s.cancels, w))
  }

  function Stopped(s: State, w: nat): State
    requires w < |s.items|
  {
    var t := s.(items := s.items[w := s.items[w].(running := false)]);
    if s.items[w].canceling then Finalize(t, w) else t
  }

  function Release(s: State, q: nat): State
    requires q < |s.queues|
  {
    s.(queues := s.queues[q := s.queues[q].(busy := false, current := None)])
  }

  /** The handler has returned. */
  function End(s: State, q: nat): State
    requires q < |s.queues|
  {
    match s.queues[q].current
    case Some(Work(w)) => if w < |s.items| then Release(Stopped(s, w), q) else s
    case Some(Flusher(f)) =>
      if f < |s.flushes| && s.flushes[f].given then
        Release(s.(flushes := s.flushes[f := s.flushes[f].(running := false)]), q)
      else s
    case None => s
  }

  // ----- Queue operations -----

  function Start(s: State, q: nat): State
    requires q < |s.queues|
  {
    if s.queues[q].started then s
    else s.(queues := s.queues[q := WorkQ(true, false, false, false, false, [], None, [])])
  }

  predicate DrainWaits(queue: WorkQ, plug: bool) { queue.busy || queue.drain || plug || queue.pending != [] }

  function Drain(s: State, q: nat, plug: bool, thread: nat): State
    requires q < |s.queues|
  {
    var queue := s.queues[q];
    if DrainWaits(queue, plug) then
      s.(queues := s.queues[q := queue.(
         drain := true, plugged := queue.plugged || plug, asleep := false, drainers := queue.drainers + [thread])])
    else s
  }

  function Unplug(s: State, q: nat): State
    requires q < |s.queues|
  {
    s.(queues := s.queues[q := s.queues[q].(plugged := false)])
  }

  // ----- Runs -----

  /** What plain operations assert about their argument: the item is not delayable; delayable ones: it is. */
  predicate Enabled(s: State, step: Step) {
    match step
    case DoSubmit(w, _, _) => w < |s.items|
    case DoFlush(w) => w < |s.items| && !s.items[w].delayable
    case DoCancel(w) => w < |s.items| && !s.items[w].delayable
    case DoCancelSync(w) => w < |s.items| && !s.items[w].delayable
    case DoSchedule(w, _, _, _) => w < |s.items| && s.items[w].delayable
    case DoReschedule(w, _, _, _) => w < |s.items| && s.items[w].delayable
    case DoExpire(w) => w < |s.items| && s.items[w].delayable
    case DoCancelDelayable(w) => w < |s.items| && s.items[w].delayable
    case DoCancelDelayableSync(w) => w < |s.items| && s.items[w].delayable
    case DoFlushDelayable(w, _) => w < |s.items| && s.items[w].delayable
    case DoLook(q) => q < |s.queues|
    case DoHandle(q) => q < |s.queues|
    case DoEnd(q) => q < |s.queues|
    case DoStart(q) => q < |s.queues|
    case DoDrain(q, _, _) => q < |s.queues|
    case DoUnplug(q) => q < |s.queues|
  }

  function Next(s: State, step: Step): State {
    if !Enabled(s, step) then s else
    match step
    case DoSubmit(w, t, c) => Submit(s, w, t, c)
    case DoFlush(w) => FlushWork(s, w)
    case DoCancel(w) => CancelAsync(s, w)
    case DoCancelSync(w) => CancelSync(s, w)
    case DoSchedule(w, t, d, c) => Schedule(s, w, t, d, c)
    case DoReschedule(w, t, d, c) => Reschedule(s, w, t, d, c)
    case DoExpire(w) => Expire(s, w)
    case DoCancelDelayable(w) => CancelDelayable(s, w)
    case DoCancelDelayableSync(w) => CancelDelayableSync(s, w)
    case DoFlushDelayable(w, c) => FlushDelayable(s, w, c)
    case DoLook(q) => Look(s, q)
    case DoHandle(q) => Handle(s, q)
    case DoEnd(q) => End(s, q)
    case DoStart(q) => Start(s, q)
    case DoDrain(q, plug, thread) => Drain(s, q, plug, thread)
    case DoUnplug(q) => Unplug(s, q)
  }

  function Run(s: State, steps: seq<Step>): State
    decreases |steps|
  {
    if steps == [] then s else Run(Next(s, steps[0]), steps[1..])
  }

  /** Initialised items and queues, nothing started. */
  ghost predicate Initial(s: State) {
    && (forall w :: 0 <= w < |s.items| ==> s.items[w] == Item(s.items[w].delayable, false, false, false, false, None, None, false, 0, 0))
    && (forall q :: 0 <= q < |s.queues| ==> s.queues[q] == WorkQ(false, false, false, false, false, [], None, []))
    && s.cancels == [] && s.signalled == [] && s.cancelIds == 0 && s.flushes == []
  }
}
