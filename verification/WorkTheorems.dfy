/** The promises of kernel/work.c, over every run from initialised items and queues. */
module WorkTheorems {
  import opened Lists
  import opened WorkModel
  import opened WorkRuns
  import opened WorkAnswers

  // ----- What the calls leave alone -----

  /** Instances that are over stay over, and no number is used twice. */
  ghost predicate Later(a: Item, b: Item) {
    a.submits <= b.submits && (forall n: nat :: n <= a.submits && Over(a, n) ==> Over(b, n))
  }

  ghost predicate ItemsLater(a: seq<Item>, b: seq<Item>) {
    |a| == |b| && forall w :: 0 <= w < |a| ==> Later(a[w], b[w])
  }

  /** A flusher waits for what it was made for. */
  ghost predicate SameFlushes(a: seq<Flush>, b: seq<Flush>) {
    |a| <= |b| && forall f :: 0 <= f < |a| ==> b[f].work == a[f].work && b[f].upto == a[f].upto
  }

  ghost predicate SameDrainers(a: seq<WorkQ>, b: seq<WorkQ>) {
    |a| == |b| && forall q :: 0 <= q < |a| ==> b[q].drainers == a[q].drainers
  }

  /** What submit, flush, schedule and the synchronous part of cancel keep. */
  ghost predicate Frame(s: State, t: State) {
    && ItemsLater(s.items, t.items)
    && SameFlushes(s.flushes, t.flushes)
    && SameDrainers(s.queues, t.queues)
    && t.cancels == s.cancels && t.signalled == s.signalled && t.cancelIds == s.cancelIds
  }

  lemma FrameTrans(s: State, t: State, u: State)
    requires Frame(s, t) && Frame(t, u)
    ensures Frame(s, u)
  {
  }

  lemma SubmitFrame(s: State, w: nat, target: Option<nat>, caller: Option<nat>)
    requires w < |s.items|
    ensures Frame(s, Submit(s, w, target, caller))
  {
  }

  lemma FlushFrame(s: State, w: nat)
    requires w < |s.items|
    ensures Frame(s, FlushWork(s, w))
  {
  }

  lemma CancelFrame(s: State, w: nat)
    requires w < |s.items|
    ensures Frame(s, CancelAsync(s, w))
  {
  }

  lemma ScheduleFrame(s: State, w: nat, target: Option<nat>, delay: Delay, caller: Option<nat>)
    requires w < |s.items|
    ensures Frame(s, ScheduleFor(s, w, target, delay, caller))
  {
  }

  lemma UnscheduleFrame(s: State, w: nat)
    requires w < |s.items|
    ensures Frame(s, Unschedule(s, w))
  {
  }

  /** Steps of a queue's thread and operations on a whole queue. */
  predicate WorkerStep(step: Step) {
    step.DoLook? || step.DoHandle? || step.DoEnd? || step.DoStart? || step.DoDrain? || step.DoUnplug?
  }

  /** The state that a call reaches before it perhaps leaves a canceller record. */
  function Called(s: State, step: Step): State
    requires Enabled(s, step) && !WorkerStep(step)
  {
    match step
    case DoCancelSync(w) => if Busy(s.items[w]) != 0 then CancelAsync(s, w) else s
    case DoCancelDelayableSync(w) => if Busy(s.items[w]) != 0 then CancelDelayable(s, w) else s
    case _ => Next(s, step)
  }

  lemma ExpireFrame(s: State, w: nat)
    requires w < |s.items|
    ensures Frame(s, Expire(s, w))
  {
  }

  lemma FlushDelayableFrame(s: State, w: nat, caller: Option<nat>)
    requires w < |s.items|
    ensures Frame(s, FlushDelayable(s, w, caller))
  {
    var u := Unschedule(s, w);
    UnscheduleFrame(s, w);
    SubmitFrame(u, w, s.items[w].delayQueue, caller);
    var v := Submit(u, w, s.items[w].delayQueue, caller);
    FrameTrans(s, u, v);
    assert |v.items| == |s.items|;
    hide Submit, FlushWork;
    FlushFrame(v, w);
    FlushFrame(s, w);
    FrameTrans(s, v, FlushWork(v, w));
  }

  lemma CalledFrame(s: State, step: Step)
    requires Enabled(s, step) && !WorkerStep(step)
    ensures Frame(s, Called(s, step))
  {
    var w := step.w;
    var u := Unschedule(s, w);
    UnscheduleFrame(s, w);
    assert |u.items| == |s.items|;
    assert Frame(s, s);
    hide Frame, Submit, FlushWork, CancelAsync, ScheduleFor, Unschedule, Await;
    match step
    case DoSubmit(_, t, c) => SubmitFrame(s, w, t, c);
    case DoFlush(_) => FlushFrame(s, w);
    case DoCancel(_) => CancelFrame(s, w);
    case DoCancelSync(_) => CancelFrame(s, w);
    case DoSchedule(_, t, d, c) => ScheduleFrame(s, w, t, d, c);
    case DoReschedule(_, t, d, c) =>
      ScheduleFrame(u, w, t, d, c);
      FrameTrans(s, u, ScheduleFor(u, w, t, d, c));
    case DoExpire(_) => ExpireFrame(s, w);
    case DoCancelDelayable(_) =>
      CancelFrame(u, w);
      FrameTrans(s, u, CancelAsync(u, w));
    case DoCancelDelayableSync(_) =>
      CancelFrame(u, w);
      FrameTrans(s, u, CancelAsync(u, w));
    case DoFlushDelayable(_, c) => FlushDelayableFrame(s, w, c);
  }

  /** A call changes nothing more than `Called` does, but for one record of an item that is canceling. */
  lemma NextCalled(s: State, step: Step)
    requires Enabled(s, step) && !WorkerStep(step)
    ensures var t, u := Next(s, step), Called(s, step);
      || t == u
      || (step.w < |u.items| && u.items[step.w].canceling
          && t == u.(cancels := u.cancels + [Canceller(u.cancelIds, step.w)], cancelIds := u.cancelIds + 1))
  {
  }

  // ----- Where items are -----

  /**
   In every reachable state a queued item is in the list of its queue exactly once and in no other list, an item that is
   not queued is in none, a canceling item is running and not queued, and an item is handled by the thread of its own
   queue and by no other, so its handler is never entered twice.
   */
  lemma Placement(s0: State, steps: seq<Step>, w: nat, q: nat)
    requires Initial(s0)
    ensures var s := Run(s0, steps);
      w < |s.items| && q < |s.queues| ==>
        && Count(s.queues[q].pending, Work(w)) == (if s.items[w].queued && s.items[w].queue == Some(q) then 1 else 0)
        && (s.queues[q].current == Some(Work(w)) <==> s.items[w].running && s.items[w].queue == Some(q))
        && (s.items[w].queued || s.items[w].running ==> s.items[w].queue.Some? && s.items[w].queue.value < |s.queues|)
        && (s.items[w].canceling ==> s.items[w].running && !s.items[w].queued)
  {
    InitialInv(s0);
    RunInv(s0, steps);
    var s := Run(s0, steps);
    hide Run;
    if w < |s.items| && q < |s.queues| {
      assert Rel(w, s.items[w], q, s.queues[q]);
      assert ItemOk(s.items[w], |s.queues|);
    }
  }

  /** A timeout is armed only when it is not linked already, as the timeout code demands of its callers. */
  lemma ArmedOnce(s0: State, steps: seq<Step>, w: nat)
    requires Initial(s0)
    ensures var s := Run(s0, steps);
      w < |s.items| && s.items[w].delayable ==>
        && (s.items[w].linked ==> s.items[w].delayed)
        && !Unschedule(s, w).items[w].linked
        && (!(s.items[w].canceling || s.items[w].queued || s.items[w].delayed) ==> !s.items[w].linked)
  {
    InitialInv(s0);
    RunInv(s0, steps);
    var s := Run(s0, steps);
    hide Run;
    if w < |s.items| {
      assert ItemOk(s.items[w], |s.queues|);
    }
  }

  // ----- Sleeping and draining -----

  /** What a submission can do to a queue. */
  lemma SubmitAdmits(s: State, w: nat, target: Option<nat>, caller: Option<nat>, q: nat)
    requires Inv(s) && w < |s.items| && q < |s.queues|
    ensures var t := Submit(s, w, target, caller);
      && |t.queues| == |s.queues| && |t.items| == |s.items|
      && (t.queues[q] != s.queues[q] ==>
            && s.queues[q].started && (s.queues[q].drain ==> caller == Some(q)) && (s.queues[q].plugged ==> s.queues[q].drain)
            && !s.items[w].queued && !s.items[w].canceling && (s.items[w].running ==> s.items[w].queue == Some(q))
            && t.queues[q].pending == s.queues[q].pending + [Work(w)])
  {
  }

  /** The queue whose thread performs a step, if any. */
  function CallerOf(step: Step): Option<nat> {
    match step
    case DoSubmit(_, _, c) => c
    case DoSchedule(_, _, _, c) => c
    case DoReschedule(_, _, _, c) => c
    case DoFlushDelayable(_, c) => c
    case _ => None
  }

  /** An item comes on to a queue that may take it now. */
  ghost predicate Admitted(s: State, w: nat, q: nat, caller: Option<nat>) {
    && w < |s.items| && q < |s.queues|
    && s.queues[q].started && (s.queues[q].drain ==> caller == Some(q)) && (s.queues[q].plugged ==> s.queues[q].drain)
    && !s.items[w].queued && !s.items[w].canceling && (s.items[w].running ==> s.items[w].queue == Some(q))
  }

  /** No new item is on queue `q`, or one is and it was admitted. */
  ghost predicate Entered(s: State, t: State, q: nat, caller: Option<nat>)
    requires q < |s.queues|
  {
    && |t.queues| == |s.queues|
    && forall w :: Work(w) in t.queues[q].pending && Work(w) !in s.queues[q].pending ==> Admitted(s, w, q, caller)
  }

  lemma SubmitEnters(s: State, w: nat, target: Option<nat>, caller: Option<nat>, q: nat)
    requires Inv(s) && w < |s.items| && q < |s.queues|
    ensures Entered(s, Submit(s, w, target, caller), q, caller)
  {
    SubmitAdmits(s, w, target, caller, q);
    hide Inv, Submit;
  }

  /** Unscheduling changes neither queues nor the flags that admission looks at. */
  lemma UnscheduleEnters(s: State, w: nat, t: State, q: nat, caller: Option<nat>)
    requires w < |s.items| && q < |s.queues| && Entered(Unschedule(s, w), t, q, caller)
    ensures Entered(s, t, q, caller)
  {
  }

  lemma FlushEnters(s: State, t: State, w: nat, q: nat, caller: Option<nat>)
    requires w < |t.items| && q < |s.queues| && Entered(s, t, q, caller)
    ensures Entered(s, FlushWork(t, w), q, caller)
  {
    hide Find;
    var u := FlushWork(t, w);
    forall v | Work(v) in u.queues[q].pending ensures Work(v) in t.queues[q].pending {
      if NeedsFlush(t.items[w]) && t.items[w].queue == Some(q) {
        var p := Find(t.queues[q].pending, Work(w));
        InsertIn(t.queues[q].pending, if p < |t.queues[q].pending| then p + 1 else 0, Flusher(|t.flushes|));
      }
    }
  }

  lemma DelayedEnters(s: State, step: Step, q: nat)
    requires Inv(s) && Enabled(s, step) && q < |s.queues|
    requires step.DoSchedule? || step.DoReschedule? || step.DoExpire? || step.DoFlushDelayable?
    ensures Entered(s, Next(s, step), q, CallerOf(step))
  {
    var w, c := step.w, CallerOf(step);
    UnscheduleInv(s, w);
    var u := Unschedule(s, w);
    var target := if step.DoSchedule? || step.DoReschedule? then step.target else s.items[w].delayQueue;
    SubmitEnters(s, w, target, c, q);
    SubmitEnters(u, w, target, c, q);
    UnscheduleEnters(s, w, Submit(u, w, target, c), q, c);
    SubmitSize(u, w, target, c);
    FlushEnters(s, Submit(u, w, target, c), w, q, c);
    FlushEnters(s, s, w, q, c);
    hide Inv, Submit, FlushWork;
  }

  lemma DequeueEnters(s: State, w: nat, q: nat)
    requires w < |s.items| && q < |s.queues|
    ensures |Dequeue(s, w).queues| == |s.queues|
    ensures forall n :: n in Dequeue(s, w).queues[q].pending ==> n in s.queues[q].pending
  {
    forall n | n in Dequeue(s, w).queues[q].pending ensures n in s.queues[q].pending {
      if s.items[w].queued && s.items[w].queue == Some(q) {
        RemovedIn(s.queues[q].pending, Work(w), n);
      }
    }
  }

  lemma AsyncQueues(s: State, w: nat)
    requires w < |s.items|
    ensures CancelAsync(s, w).queues == s.queues || CancelAsync(s, w).queues == Dequeue(s, w).queues
  {
    hide Dequeue;
  }

  lemma CancelEnters(s: State, step: Step, q: nat)
    requires Enabled(s, step) && q < |s.queues|
    requires step.DoCancel? || step.DoCancelSync? || step.DoCancelDelayable? || step.DoCancelDelayableSync?
    ensures Entered(s, Next(s, step), q, CallerOf(step))
  {
    hide Dequeue, Admitted;
    DequeueEnters(s, step.w, q);
    DequeueEnters(Unschedule(s, step.w), step.w, q);
    AsyncQueues(s, step.w);
    AsyncQueues(Unschedule(s, step.w), step.w);
    hide CancelAsync;
  }

  lemma QueueEnters(s: State, step: Step, q: nat)
    requires Inv(s) && Enabled(s, step) && q < |s.queues|
    requires step.DoLook? || step.DoHandle? || step.DoEnd? || step.DoStart? || step.DoDrain? || step.DoUnplug?
    ensures Entered(s, Next(s, step), q, CallerOf(step))
  {
    hide Inv, Without, IdsFor;
  }

  /**
   Whatever the step, and by whichever path, an item comes on to a pending list only if the queue is started, only from its own
   thread while the queue drains, not while it is plugged unless it drains, never while the item is cancelling, and while the
   item runs only on the queue that runs it.
   */
  lemma Admission(s: State, step: Step, q: nat)
    requires Inv(s) && q < |s.queues|
    ensures Entered(s, Next(s, step), q, CallerOf(step))
  {
    if Enabled(s, step) {
      match step
      case DoSubmit(w, target, c) => SubmitEnters(s, w, target, c, q);
      case DoFlush(w) => FlushEnters(s, s, w, q, None);
      case DoCancel(_) => CancelEnters(s, step, q);
      case DoCancelSync(_) => CancelEnters(s, step, q);
      case DoCancelDelayable(_) => CancelEnters(s, step, q);
      case DoCancelDelayableSync(_) => CancelEnters(s, step, q);
      case DoSchedule(_, _, _, _) => DelayedEnters(s, step, q);
      case DoReschedule(_, _, _, _) => DelayedEnters(s, step, q);
      case DoExpire(_) => DelayedEnters(s, step, q);
      case DoFlushDelayable(_, _) => DelayedEnters(s, step, q);
      case _ => QueueEnters(s, step, q);
    }
  }

  /** No lost wake-up: a sleeping thread has nothing to do; and who waits on drainq waits for a drain that is going on. */
  lemma SleepSound(s0: State, steps: seq<Step>, q: nat)
    requires Initial(s0)
    ensures var s := Run(s0, steps);
      q < |s.queues| ==>
        && (s.queues[q].asleep ==> s.queues[q].started && s.queues[q].pending == [] && !s.queues[q].drain && s.queues[q].current.None?)
        && (s.queues[q].drainers != [] ==> s.queues[q].drain)
        && (s.queues[q].busy <==> s.queues[q].current.Some?)
  {
    InitialInv(s0);
    RunInv(s0, steps);
    var s := Run(s0, steps);
    hide Run;
    if q < |s.queues| {
      assert QueueOk(s.queues[q]);
    }
  }

  lemma LookDrainers(s: State, p: nat, q: nat)
    requires p < |s.queues| && q < |s.queues|
    ensures |Look(s, p).queues| == |s.queues|
    ensures Look(s, p).queues[q].drainers == s.queues[q].drainers || (s.queues[q].pending == [] && s.queues[q].current.None?)
  {
  }

  lemma EndDrainers(s: State, p: nat, q: nat)
    requires p < |s.queues| && q < |s.queues|
    ensures |End(s, p).queues| == |s.queues| && End(s, p).queues[q].drainers == s.queues[q].drainers
  {
    hide Without, IdsFor;
  }

  /** A thread leaves drainq only when the queue has nothing pending and no handler runs. */
  lemma DrainSound(s: State, step: Step, q: nat, i: nat)
    requires Inv(s) && q < |s.queues| && i < |s.queues[q].drainers|
    ensures var t := Next(s, step);
      q < |t.queues| && (
        || (i < |t.queues[q].drainers| && t.queues[q].drainers[i] == s.queues[q].drainers[i])
        || (s.queues[q].pending == [] && s.queues[q].current.None?))
  {
    assert QueueOk(s.queues[q]);
    hide Inv, Without, IdsFor;
    if Enabled(s, step) && !WorkerStep(step) {
      CalledFrame(s, step);
      NextCalled(s, step);
      hide Next, Called;
    } else if Enabled(s, step) && step.DoLook? {
      LookDrainers(s, step.q, q);
      hide Look;
    } else if Enabled(s, step) && step.DoEnd? {
      EndDrainers(s, step.q, q);
      hide End;
    }
  }

  // ----- Cancellation -----

  /** The item whose pending cancellation a step completes. */
  function Completes(s: State, step: Step): Option<nat> {
    match step
    case DoEnd(q) =>
      if q < |s.queues| && s.queues[q].current.Some? && s.queues[q].current.value.Work?
        && s.queues[q].current.value.w < |s.items| && s.items[s.queues[q].current.value.w].canceling
      then Some(s.queues[q].current.value.w) else None
    case _ => None
  }

  /**
   The list of waiting cancellers only grows, by a record of an item that is canceling, until the handler of such an item
   ends: then exactly its records go, in order and each signalled, and the item is idle but for a delay.
   */
  lemma CancelsMove(s: State, step: Step)
    requires Inv(s)
    ensures var t := Next(s, step);
      match Completes(s, step)
      case Some(w) =>
        && t.cancels == Without(s.cancels, w) && t.signalled == s.signalled + IdsFor(s.cancels, w)
        && w < |t.items| && !t.items[w].running && !t.items[w].queued && !t.items[w].canceling
      case None =>
        && t.signalled == s.signalled
        && (t.cancels == s.cancels ||
            (exists w: nat :: t.cancels == s.cancels + [Canceller(s.cancelIds, w)] && w < |t.items| && t.items[w].canceling))
  {
    match Completes(s, step)
    case Some(w) =>
      assert ItemOk(s.items[w], |s.queues|);
      hide Without, IdsFor;
    case None =>
      hide Inv, Without, IdsFor;
      if Enabled(s, step) && !WorkerStep(step) {
        CalledFrame(s, step);
        NextCalled(s, step);
        hide Next, Called;
      }
  }

  /**
   What a cancel achieves: the item is in no pending list; it stays busy exactly when its handler was running, and then it is
   CANCELING and every submission is refused until the handler has ended.
   */
  lemma CancelMeans(s: State, w: nat, target: Option<nat>, caller: Option<nat>)
    requires Inv(s) && w < |s.items| && !s.items[w].delayed
    ensures var t := CancelAsync(s, w);
      && w < |t.items| && !t.items[w].queued && t.items[w].running == s.items[w].running
      && (t.items[w].canceling <==> s.items[w].running)
      && (Busy(t.items[w]) != 0 <==> s.items[w].running)
      && (forall q: nat :: q < |t.queues| ==> Work(w) !in t.queues[q].pending)
      && (s.items[w].running ==> SubmitCode(t, w, target, caller) == -EBUSY)
  {
    CancelAsyncInv(s, w);
    assert ItemOk(s.items[w], |s.queues|);
    var t := CancelAsync(s, w);
    forall q: nat | q < |t.queues| ensures w < |t.items| && !t.items[w].queued ==> Work(w) !in t.queues[q].pending {
      if w < |t.items| {
        assert Rel(w, t.items[w], q, t.queues[q]);
        CountIn(t.queues[q].pending, Work(w));
      }
    }
    hide Inv, Removed, Count;
  }

  /** No record is lost: whoever waits for a cancellation waits for a handler that is running now. */
  lemma CancelNotLost(s0: State, steps: seq<Step>, i: nat)
    requires Initial(s0)
    ensures var s := Run(s0, steps);
      i < |s.cancels| ==>
        var w := s.cancels[i].work;
        && w < |s.items| && s.items[w].canceling && s.items[w].running && s.items[w].queue.Some?
        && s.items[w].queue.value < |s.queues| && s.queues[s.items[w].queue.value].current == Some(Work(w))
        && s.queues[s.items[w].queue.value].started
  {
    InitialInv(s0);
    RunInv(s0, steps);
    var s := Run(s0, steps);
    hide Run;
    if i < |s.cancels| {
      var w := s.cancels[i].work;
      assert ItemOk(s.items[w], |s.queues|);
      var q := s.items[w].queue.value;
      assert Rel(w, s.items[w], q, s.queues[q]);
      assert QueueOk(s.queues[q]);
    }
  }

  /** Every record ever made is either still waiting, once, or has been signalled, once. */
  ghost predicate Ledger(s: State) {
    EachOnce(multiset(s.signalled) + multiset(Ids(s.cancels)), s.cancelIds)
  }

  lemma IdsCons(c: Canceller, cs: seq<Canceller>)
    ensures Ids([c] + cs) == [c.id] + Ids(cs)
  {
  }

  lemma {:induction false} SplitIds(cs: seq<Canceller>, w: nat)
    ensures multiset(Ids(cs)) == multiset(Ids(Without(cs, w))) + multiset(IdsFor(cs, w))
  {
    if cs != [] {
      SplitIds(cs[1..], w);
      IdsCons(cs[0], cs[1..]);
      assert [cs[0]] + cs[1..] == cs;
      if cs[0].work != w {
        IdsCons(cs[0], Without(cs[1..], w));
      }
    }
  }

  lemma IdsSnoc(cs: seq<Canceller>, c: Canceller)
    ensures Ids(cs + [c]) == Ids(cs) + [c.id]
  {
  }

  lemma {:induction false} WithoutShorter(cs: seq<Canceller>, w: nat)
    ensures |Without(cs, w)| <= |cs|
  {
    if cs != [] {
      WithoutShorter(cs[1..], w);
    }
  }

  lemma NextIds(s: State, step: Step)
    ensures var t := Next(s, step);
      t.cancelIds == (if |t.cancels| > |s.cancels| then s.cancelIds + 1 else s.cancelIds)
  {
    if Enabled(s, step) && !WorkerStep(step) {
      CalledFrame(s, step);
      NextCalled(s, step);
      hide Next, Called;
    } else {
      forall w: nat ensures |Without(s.cancels, w)| <= |s.cancels| {
        WithoutShorter(s.cancels, w);
      }
      hide Without;
    }
  }

  lemma SameIds(signalled: seq<nat>, all: seq<nat>, left: seq<nat>, now: seq<nat>)
    requires multiset(all) == multiset(left) + multiset(now)
    ensures multiset(signalled) + multiset(all) == multiset(signalled + now) + multiset(left)
  {
  }

  lemma SignalledLedger(s: State, t: State, w: nat)
    requires Ledger(s) && t.cancelIds == s.cancelIds
    requires t.cancels == Without(s.cancels, w) && t.signalled == s.signalled + IdsFor(s.cancels, w)
    ensures Ledger(t)
  {
    hide Without, IdsFor, EachOnce, Ids;
    SplitIds(s.cancels, w);
    SameIds(s.signalled, Ids(s.cancels), Ids(Without(s.cancels, w)), IdsFor(s.cancels, w));
  }

  lemma OneMore(signalled: seq<nat>, ids: seq<nat>, n: nat)
    requires EachOnce(multiset(signalled) + multiset(ids), n)
    ensures EachOnce(multiset(signalled) + multiset(ids + [n]), n + 1)
  {
    hide EachOnce;
    EachOnceMore(multiset(signalled) + multiset(ids), n);
    assert multiset(signalled) + multiset(ids + [n]) == multiset(signalled) + multiset(ids) + multiset{n};
  }

  lemma RecordedLedger(s: State, t: State, w: nat)
    requires Ledger(s) && t.cancelIds == s.cancelIds + 1
    requires t.cancels == s.cancels + [Canceller(s.cancelIds, w)] && t.signalled == s.signalled
    ensures Ledger(t)
  {
    hide EachOnce, Ids;
    IdsSnoc(s.cancels, Canceller(s.cancelIds, w));
    OneMore(s.signalled, Ids(s.cancels), s.cancelIds);
  }

  lemma SameLedger(s: State, t: State)
    requires Ledger(s) && t.cancelIds == s.cancelIds && t.cancels == s.cancels && t.signalled == s.signalled
    ensures Ledger(t)
  {
  }

  lemma NextLedger(s: State, step: Step)
    requires Inv(s) && Ledger(s)
    ensures Ledger(Next(s, step))
  {
    CancelsMove(s, step);
    NextIds(s, step);
    var t := Next(s, step);
    hide Next, Inv, Without, IdsFor, Ledger;
    match Completes(s, step)
    case Some(w) =>
      WithoutShorter(s.cancels, w);
      SignalledLedger(s, t, w);
    case None =>
      if t.cancels != s.cancels {
        var w :| t.cancels == s.cancels + [Canceller(s.cancelIds, w)];
        RecordedLedger(s, t, w);
      } else {
        SameLedger(s, t);
      }
  }

  lemma {:induction false} RunLedger(s: State, steps: seq<Step>)
    requires Inv(s) && Ledger(s)
    ensures Ledger(Run(s, steps))
    decreases |steps|
  {
    hide Inv, Next, Ledger;
    if steps != [] {
      NextInv(s, steps[0]);
      NextLedger(s, steps[0]);
      RunLedger(Next(s, steps[0]), steps[1..]);
    }
  }

  /** Every canceller record ever made is waiting, once, or has been signalled, once. */
  lemma EachSignalledOnce(s0: State, steps: seq<Step>)
    requires Initial(s0)
    ensures var s := Run(s0, steps); EachOnce(multiset(s.signalled) + multiset(Ids(s.cancels)), s.cancelIds)
  {
    InitialInv(s0);
    assert Ledger(s0);
    RunLedger(s0, steps);
  }

  // ----- Flush -----

  lemma LookLater(s: State, q: nat)
    requires Inv(s) && q < |s.queues|
    ensures ItemsLater(s.items, Look(s, q).items) && SameFlushes(s.flushes, Look(s, q).flushes)
  {
  }

  lemma WorkerLater(s: State, step: Step)
    requires Inv(s) && WorkerStep(step)
    ensures ItemsLater(s.items, Next(s, step).items) && SameFlushes(s.flushes, Next(s, step).flushes)
  {
    if step.DoLook? && Enabled(s, step) {
      hide Look;
      LookLater(s, step.q);
    } else {
      hide Inv, Without, IdsFor;
    }
  }

  lemma NextLater(s: State, step: Step)
    requires Inv(s)
    ensures ItemsLater(s.items, Next(s, step).items) && SameFlushes(s.flushes, Next(s, step).flushes)
  {
    if WorkerStep(step) {
      WorkerLater(s, step);
    } else if Enabled(s, step) {
      CalledFrame(s, step);
      NextCalled(s, step);
      hide Next, Called, Inv, ItemsLater, SameFlushes;
    } else {
    }
  }

  lemma {:induction false} RunLater(s: State, steps: seq<Step>)
    requires Inv(s)
    ensures ItemsLater(s.items, Run(s, steps).items) && SameFlushes(s.flushes, Run(s, steps).flushes)
    decreases |steps|
  {
    if steps != [] {
      var t := Next(s, steps[0]);
      NextInv(s, steps[0]);
      NextLater(s, steps[0]);
      RunLater(t, steps[1..]);
      hide Inv, Next, Over;
    }
  }

  /**
   Flush ordering.  However a run goes on after a flush that has to wait, the semaphore of its flusher is given only
   when every instance of the item that had been submitted before the flush is over: run to its end, or cancelled.
   The flusher itself is never lost: it waits in the queue, is being handled, or has given the semaphore.
   */
  lemma FlushComplete(s: State, w: nat, steps: seq<Step>)
    requires Inv(s) && w < |s.items| && (Pends(s, w) || Runs(s, w))
    ensures var t := FlushWork(s, w);
      var u := Run(t, steps);
      var f := |s.flushes|;
      && |t.flushes| == f + 1 && !t.flushes[f].given
      && f < |u.flushes| && w < |u.items|
      && (u.flushes[f].given ==> Over(u.items[w], s.items[w].submits))
      && (u.flushes[f].given || u.flushes[f].running
          || (u.flushes[f].waiting && u.flushes[f].queue < |u.queues|
              && Count(u.queues[u.flushes[f].queue].pending, Flusher(f)) == 1))
  {
    var t := FlushWork(s, w);
    var f := |s.flushes|;
    FlagsMean(s, w);
    hide Pends, Runs;
    assert ItemOk(s.items[w], |s.queues|);
    FlushWorkInv(s, w);
    assert |t.flushes| == f + 1 && t.flushes[f] == Flush(w, s.items[w].queue.value, s.items[w].submits, true, false, false);
    assert |t.items| == |s.items|;
    hide FlushWork;
    RunInv(t, steps);
    RunLater(t, steps);
    var u := Run(t, steps);
    hide Run;
    assert FlushOk(f, u.flushes[f], u.items, u.queues);
    assert FlushRel(f, u.flushes[f], u.flushes[f].queue, u.queues[u.flushes[f].queue]);
  }

  /**
   The same for delayable work.  A flush submits an item that is delayed.  A flusher is added if and only if the item is on a list
   or in its handler then, and it waits for the instance that the flush itself submitted too, if the queue took it; if none is
   added, every instance is over.
   */
  lemma FlushDelayableComplete(s: State, w: nat, caller: Option<nat>, steps: seq<Step>)
    requires Inv(s) && w < |s.items|
    ensures var t := FlushDelayable(s, w, caller);
      var u := Run(t, steps);
      var f := |s.flushes|;
      && w < |t.items| && !t.items[w].delayed && !t.items[w].linked
      && t.items[w].submits == s.items[w].submits +
           (if s.items[w].delayed && SubmitCode(Unschedule(s, w), w, s.items[w].delayQueue, caller) > 0 then 1 else 0)
      && |t.flushes| == f + (if Pends(t, w) || Runs(t, w) then 1 else 0)
      && (|t.flushes| == f ==> Over(t.items[w], t.items[w].submits))
      && (|t.flushes| > f ==>
            && !t.flushes[f].given && f < |u.flushes| && w < |u.items|
            && (u.flushes[f].given ==> Over(u.items[w], t.items[w].submits))
            && (u.flushes[f].given || u.flushes[f].running
                || (u.flushes[f].waiting && u.flushes[f].queue < |u.queues|
                    && Count(u.queues[u.flushes[f].queue].pending, Flusher(f)) == 1)))
  {
    FlushDelayableAnswer(s, w, caller);
    var v := Undelayed(s, w, caller);
    hide Inv, FlushDelayable, FlushWork, Undelayed, Unschedule, SubmitCode, Run, Over, Pends, Runs;
    if Pends(v, w) || Runs(v, w) {
      FlushComplete(v, w, steps);
    }
  }

  // ----- A queue left to itself -----

  function Turns(q: nat, n: nat): seq<Step> {
    if n == 0 then [DoLook(q)] else [DoLook(q), DoHandle(q), DoEnd(q)] + Turns(q, n - 1)
  }

  /** The thread takes a node, handles it and comes back. */
  function Turn(s: State, q: nat): State {
    Next(Next(Next(s, DoLook(q)), DoHandle(q)), DoEnd(q))
  }

  /** The node that a step begins to handle. */
  function Begun(s: State, step: Step): seq<Node> {
    if step.DoLook? && step.q < |s.queues| && s.queues[step.q].current.None? then
      var t := Next(s, step);
      if step.q < |t.queues| && t.queues[step.q].current.Some? then [t.queues[step.q].current.value] else []
    else []
  }

  function AllBegun(s: State, steps: seq<Step>): seq<Node>
    decreases |steps|
  {
    if steps == [] then [] else Begun(s, steps[0]) + AllBegun(Next(s, steps[0]), steps[1..])
  }

  /** The item of a node that has been handled. */
  function Ran(it: Item): Item { it.(queued := false, running := false, canceling := false, runs := it.submits) }

  /** Each item that is on the list has been run; the others are as they were. */
  ghost predicate AllRan(s: State, t: State, list: seq<Node>) {
    && |t.items| == |s.items|
    && forall v: nat :: v < |s.items| ==> t.items[v] == if Work(v) in list then Ran(s.items[v]) else s.items[v]
  }

  lemma OneTurn(s: State, q: nat)
    requires Inv(s) && q < |s.queues| && s.queues[q].started && !s.queues[q].asleep && s.queues[q].current.None?
    requires s.queues[q].pending != []
    ensures Inv(Turn(s, q)) && |Turn(s, q).queues| == |s.queues|
    ensures Turn(s, q).queues[q] == s.queues[q].(busy := false, pending := s.queues[q].pending[1..])
  {
    NextInv(s, DoLook(q));
    NextInv(Next(s, DoLook(q)), DoHandle(q));
    NextInv(Next(Next(s, DoLook(q)), DoHandle(q)), DoEnd(q));
    assert Named(s.queues[q].pending[0], |s.items|, |s.flushes|);
    hide Inv, Without, IdsFor;
  }

  lemma HeadItem(s: State, q: nat)
    requires Inv(s) && q < |s.queues| && s.queues[q].pending != [] && s.queues[q].current.None?
    ensures var n := s.queues[q].pending[0];
      Named(n, |s.items|, |s.flushes|) && (n.Work? ==> !s.items[n.w].running && !s.items[n.w].canceling)
  {
    var n := s.queues[q].pending[0];
    assert n in s.queues[q].pending;
    if n.Work? {
      assert ItemOk(s.items[n.w], |s.queues|);
      ListedIff(s, n.w, q);
    }
    hide Count;
  }

  lemma TurnRan(s: State, q: nat)
    requires Inv(s) && q < |s.queues| && s.queues[q].started && !s.queues[q].asleep && s.queues[q].current.None?
    requires s.queues[q].pending != []
    ensures AllRan(s, Turn(s, q), [s.queues[q].pending[0]])
    ensures Begun(s, DoLook(q)) == [s.queues[q].pending[0]]
  {
    HeadItem(s, q);
    hide Inv, Without, IdsFor;
  }

  lemma RunTurn(s: State, q: nat, rest: seq<Step>)
    ensures Run(s, [DoLook(q), DoHandle(q), DoEnd(q)] + rest) == Run(Turn(s, q), rest)
    ensures AllBegun(s, [DoLook(q), DoHandle(q), DoEnd(q)] + rest) == Begun(s, DoLook(q)) + AllBegun(Turn(s, q), rest)
  {
    hide Next;
    var steps := [DoLook(q), DoHandle(q), DoEnd(q)] + rest;
    assert steps[1..] == [DoHandle(q), DoEnd(q)] + rest;
    assert steps[1..][1..] == [DoEnd(q)] + rest;
    assert steps[1..][1..][1..] == rest;
    var a := Next(s, DoLook(q));
    var b := Next(a, DoHandle(q));
    assert Run(s, steps) == Run(a, steps[1..]);
    assert Run(a, steps[1..]) == Run(b, steps[1..][1..]);
    assert AllBegun(b, steps[1..][1..]) == [] + AllBegun(Turn(s, q), rest);
    assert AllBegun(a, steps[1..]) == [] + AllBegun(b, steps[1..][1..]);
  }

  /** The thread is at rest: nothing is pending, and nobody waits on drainq. */
  ghost predicate AtRest(s: State, q: nat) {
    && q < |s.queues| && s.queues[q].asleep && s.queues[q].pending == [] && s.queues[q].drainers == [] && !s.queues[q].drain
    && s.queues[q].current.None?
  }

  /** At rest, and open or closed as before. */
  ghost predicate Rested(s: State, t: State, q: nat) {
    && q < |s.queues| && |t.queues| == |s.queues|
    && AtRest(t, q) && t.queues[q].started == s.queues[q].started && t.queues[q].plugged == s.queues[q].plugged
  }

  lemma LastLook(s: State, q: nat)
    requires Inv(s) && q < |s.queues| && s.queues[q].started && !s.queues[q].asleep && s.queues[q].current.None?
    requires s.queues[q].pending == []
    ensures var t := Run(s, [DoLook(q)]); Rested(s, t, q) && AllRan(s, t, [])
    ensures AllBegun(s, [DoLook(q)]) == []
  {
    hide ItemsOk, NodesOk, Placed, FlushPlaced, FlushesOk, CancelsOk;
    assert QueueOk(s.queues[q]);
    assert Run(s, [DoLook(q)]) == Look(s, q);
    assert [DoLook(q)][1..] == [] && AllBegun(Look(s, q), []) == [];
  }

  lemma PendsOnce(s: State, q: nat)
    requires Inv(s) && q < |s.queues| && s.queues[q].pending != [] && s.queues[q].pending[0].Work?
    ensures s.queues[q].pending[0] !in s.queues[q].pending[1..]
  {
    var list := s.queues[q].pending;
    assert list[0] in list && Named(list[0], |s.items|, |s.flushes|);
    assert Rel(list[0].w, s.items[list[0].w], q, s.queues[q]);
    hide Inv;
    assert Count(list, list[0]) == 1 + Count(list[1..], list[0]);
    hide Count;
    CountIn(list[1..], list[0]);
  }

  lemma RanTrans(s: State, t: State, u: State, n: Node, rest: seq<Node>)
    requires AllRan(s, t, [n]) && AllRan(t, u, rest) && (n.Work? ==> n !in rest)
    ensures AllRan(s, u, [n] + rest)
  {
    hide Ran;
  }

  lemma {:induction false} BetweenHandlers(s: State, q: nat)
    requires Inv(s) && q < |s.queues| && s.queues[q].started && !s.queues[q].asleep && s.queues[q].current.None?
    ensures var t := Run(s, Turns(q, |s.queues[q].pending|)); Rested(s, t, q) && AllRan(s, t, s.queues[q].pending)
    ensures AllBegun(s, Turns(q, |s.queues[q].pending|)) == s.queues[q].pending
    decreases |s.queues[q].pending|
  {
    hide Inv, Next, Turn, Run, AtRest, AllRan, Begun, AllBegun;
    var list := s.queues[q].pending;
    var n := |list|;
    if n == 0 {
      LastLook(s, q);
    } else {
      OneTurn(s, q);
      TurnRan(s, q);
      RunTurn(s, q, Turns(q, n - 1));
      BetweenHandlers(Turn(s, q), q);
      if list[0].Work? {
        PendsOnce(s, q);
      }
      RanTrans(s, Turn(s, q), Run(s, Turns(q, n)), list[0], list[1..]);
      assert list == [list[0]] + list[1..];
    }
  }

  /** The steps of the thread: it finishes what it is handling, if anything, and then takes node after node. */
  function ToRest(queue: WorkQ, q: nat): seq<Step> {
    (if queue.current.Some? then [DoHandle(q), DoEnd(q)] else []) + Turns(q, |queue.pending|)
  }

  /** What is being handled is finished first. */
  lemma Finishes(s: State, q: nat)
    requires Inv(s) && q < |s.queues| && s.queues[q].current.Some?
    ensures var u := Next(Next(s, DoHandle(q)), DoEnd(q));
      Inv(u) && |u.queues| == |s.queues| && u.queues[q] == s.queues[q].(busy := false, current := None)
  {
    NextInv(s, DoHandle(q));
    NextInv(Next(s, DoHandle(q)), DoEnd(q));
    assert Named(s.queues[q].current.value, |s.items|, |s.flushes|);
    hide Inv, Without, IdsFor;
  }

  /** An item whose handler has returned. */
  function Returned(it: Item): Item { it.(running := false, canceling := false) }

  lemma FinishReturns(s: State, q: nat)
    requires Inv(s) && q < |s.queues| && s.queues[q].current.Some?
    ensures var u := Next(Next(s, DoHandle(q)), DoEnd(q));
      && |u.items| == |s.items|
      && forall v: nat :: v < |s.items| ==>
           u.items[v] == if s.queues[q].current == Some(Work(v)) then Returned(s.items[v]) else s.items[v]
  {
    assert Named(s.queues[q].current.value, |s.items|, |s.flushes|);
    hide Inv, Without, IdsFor;
  }

  lemma RunFinish(s: State, q: nat, rest: seq<Step>)
    ensures var u := Next(Next(s, DoHandle(q)), DoEnd(q));
      && Run(s, [DoHandle(q), DoEnd(q)] + rest) == Run(u, rest)
      && AllBegun(s, [DoHandle(q), DoEnd(q)] + rest) == AllBegun(u, rest)
  {
    hide Next;
    var steps := [DoHandle(q), DoEnd(q)] + rest;
    assert steps[1..] == [DoEnd(q)] + rest;
    assert steps[1..][1..] == rest;
    var a := Next(s, DoHandle(q));
    assert Run(s, steps) == Run(a, steps[1..]);
    assert AllBegun(a, steps[1..]) == [] + AllBegun(Next(a, DoEnd(q)), rest);
    assert AllBegun(s, steps) == [] + AllBegun(a, steps[1..]);
  }

  lemma SleepsOn(s: State, q: nat)
    requires Inv(s) && q < |s.queues| && s.queues[q].asleep
    ensures Run(s, ToRest(s.queues[q], q)) == s && AtRest(s, q) && AllBegun(s, ToRest(s.queues[q], q)) == []
  {
    assert QueueOk(s.queues[q]);
    assert ToRest(s.queues[q], q) == [DoLook(q)];
    assert Run(s, [DoLook(q)]) == s;
    assert [DoLook(q)][1..] == [] && AllBegun(s, []) == [];
  }

  /** What becomes of an item while the thread of a queue goes on until it rests. */
  function Afterwards(queue: WorkQ, v: nat, it: Item): Item {
    if Work(v) in queue.pending then Ran(it) else if queue.current == Some(Work(v)) then Returned(it) else it
  }

  /**
   Its thread finishes what it is handling, then handles all that is pending, in order and each item once, ends the drain,
   releases everyone on drainq, and sleeps.  No other item is touched.
   */
  lemma LeftAlone(s: State, q: nat)
    requires Inv(s) && q < |s.queues| && s.queues[q].started
    ensures var t := Run(s, ToRest(s.queues[q], q));
      && Rested(s, t, q) && AllBegun(s, ToRest(s.queues[q], q)) == s.queues[q].pending
      && |t.items| == |s.items| && forall v: nat :: v < |s.items| ==> t.items[v] == Afterwards(s.queues[q], v, s.items[v])
  {
    assert QueueOk(s.queues[q]);
    var rest := Turns(q, |s.queues[q].pending|);
    if s.queues[q].asleep {
      SleepsOn(s, q);
      hide Inv, Run, AllBegun;
    } else if s.queues[q].current.None? {
      hide Inv, Run, AllBegun;
      BetweenHandlers(s, q);
      assert ToRest(s.queues[q], q) == rest;
    } else {
      hide Inv, Run, Next, AllBegun;
      Finishes(s, q);
      FinishReturns(s, q);
      RunFinish(s, q, rest);
      BetweenHandlers(Next(Next(s, DoHandle(q)), DoEnd(q)), q);
    }
  }

  /** So every flush of that queue is answered. */
  lemma LeftAloneFlushes(s: State, q: nat, f: nat)
    requires Inv(s) && q < |s.queues| && s.queues[q].started
    ensures var t := Run(s, ToRest(s.queues[q], q));
      f < |t.flushes| && t.flushes[f].queue == q ==> t.flushes[f].given
  {
    var t := Run(s, ToRest(s.queues[q], q));
    LeftAlone(s, q);
    RunInv(s, ToRest(s.queues[q], q));
    hide Run;
    if f < |t.flushes| && t.flushes[f].queue == q {
      assert FlushOk(f, t.flushes[f], t.items, t.queues);
      assert FlushRel(f, t.flushes[f], q, t.queues[q]);
    }
  }

  /**
   A drain shuts others out at once; left alone the queue comes to rest and releases the caller.  If it was to be plugged it
   then takes nothing from anyone until it is unplugged, else it is open again unless it had been plugged before.
   */
  lemma DrainCycle(s: State, q: nat, plug: bool, thread: nat)
    requires Inv(s) && q < |s.queues| && s.queues[q].started && (plug || s.queues[q].pending != [] || s.queues[q].current.Some?)
    ensures var d := Drain(s, q, plug, thread);
      && |d.queues| == |s.queues| && !Open(d.queues[q], false) && thread in d.queues[q].drainers
      && var t := Run(d, ToRest(d.queues[q], q));
         && AtRest(t, q)
         && Open(t.queues[q], true) == Open(t.queues[q], false) == (!plug && !s.queues[q].plugged)
         && Open(Unplug(t, q).queues[q], false)
  {
    QueueOpsInv(s, q, plug, thread);
    DrainAnswer(s, q, plug, thread);
    var d := Drain(s, q, plug, thread);
    hide Inv, Drain, Run, ToRest;
    LeftAlone(d, q);
  }
}
