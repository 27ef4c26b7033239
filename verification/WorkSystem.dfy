/** The operations of kernel/work.c on flag words and linked lists, proved against the state machine. */
module WorkSystem {
  import opened Lists
  import opened WorkModel
  import opened WorkMemory
  import opened WorkRuns
  import opened WorkAnswers

  // ----- Nodes -----

  /** What is not queued is on no list, so its link may be used. */
  lemma WorkFree(s: State, w: nat)
    requires Inv(s) && w < |s.items| && !s.items[w].queued
    ensures Free(s.queues, Work(w))
  {
    hide Count;
    forall q | 0 <= q < |s.queues| ensures Work(w) !in s.queues[q].pending {
      assert Rel(w, s.items[w], q, s.queues[q]);
      CountIn(s.queues[q].pending, Work(w));
    }
  }

  lemma FlusherFree(s: State)
    requires Inv(s)
    ensures Free(s.queues, Flusher(|s.flushes|))
  {
    forall q | 0 <= q < |s.queues| ensures Flusher(|s.flushes|) !in s.queues[q].pending {
      assert !Named(Flusher(|s.flushes|), |s.items|, |s.flushes|);
    }
  }

  // ----- The invariant, operation by operation -----

  lemma ItemAt(s: State, w: nat)
    requires Inv(s) && w < |s.items|
    ensures ItemOk(s.items[w], |s.queues|)
  {
  }

  lemma QueueAt(s: State, q: nat)
    requires Inv(s) && q < |s.queues|
    ensures QueueOk(s.queues[q])
    ensures s.queues[q].current.Some? ==> Named(s.queues[q].current.value, |s.items|, |s.flushes|)
  {
  }

  lemma CancelInv(s: State, w: nat)
    requires Inv(s) && w < |s.items| && !s.items[w].delayable
    ensures Inv(CancelAsync(s, w)) && Inv(CancelSync(s, w))
  {
    hide Inv, CancelAsync, CancelSync;
    PlainStepInv(s, DoCancel(w));
    PlainStepInv(s, DoCancelSync(w));
  }

  lemma ScheduleInv(s: State, w: nat, target: Option<nat>, delay: Delay, caller: Option<nat>)
    requires Inv(s) && w < |s.items| && s.items[w].delayable
    ensures Inv(Schedule(s, w, target, delay, caller)) && Inv(Reschedule(s, w, target, delay, caller))
  {
    hide Inv, Schedule, Reschedule;
    DelayableStepInv(s, DoSchedule(w, target, delay, caller));
    DelayableStepInv(s, DoReschedule(w, target, delay, caller));
  }

  lemma DelayableInv(s: State, w: nat, caller: Option<nat>)
    requires Inv(s) && w < |s.items| && s.items[w].delayable
    ensures Inv(Expire(s, w)) && Inv(CancelDelayable(s, w)) && Inv(CancelDelayableSync(s, w)) && Inv(FlushDelayable(s, w, caller))
  {
    hide Inv, Expire, CancelDelayable, CancelDelayableSync, FlushDelayable;
    DelayableStepInv(s, DoExpire(w));
    DelayableStepInv(s, DoCancelDelayable(w));
    DelayableStepInv(s, DoCancelDelayableSync(w));
    DelayableStepInv(s, DoFlushDelayable(w, caller));
  }

  // ----- Submission -----

  /** Wake the thread of a queue, if it sleeps. */
  method Notify(k: Memory, q: nat)
    requires k.Reps() && q < |k.state.queues|
    modifies k
    ensures k.Reps() && k.state == WithQueue(old(k.state), q, old(k.state).queues[q].(asleep := false))
  {
    if k.Asleep(q) {
      k.SetAsleep(q, false);
    } else {
      assert k.state.queues[q := k.state.queues[q].(asleep := false)] == k.state.queues;
    }
  }

  method QueueSubmit(k: Memory, target: Option<nat>, w: nat, caller: Option<nat>) returns (ret: int)
    requires k.Reps() && Free(k.state.queues, Work(w))
    modifies k
    ensures k.Reps() && ret == QueueCode(old(k.state), target, caller)
    ensures k.state == if ret < 0 then old(k.state) else Listed(old(k.state), w, target.value)
  {
    if !k.Exists(target) {
      return -EINVAL;
    }
    var q := target.value;
    var chained := caller == target;
    var draining := k.QueueFlag(q, DRAIN);
    var plugged := k.QueueFlag(q, PLUGGED);
    ret := -EBUSY;
    if !k.QueueFlag(q, STARTED) {
      ret := -ENODEV;
    } else if draining && !chained {
      ret := -EBUSY;
    } else if plugged && !draining {
      ret := -EBUSY;
    } else {
      k.Append(q, Work(w));
      ret := 1;
      Notify(k, q);
    }
  }

  lemma SubmitIs(s: State, w: nat, target: Option<nat>, caller: Option<nat>)
    requires w < |s.items|
    ensures s.items[w].canceling ==> SubmitCode(s, w, target, caller) == -EBUSY
    ensures !s.items[w].canceling && s.items[w].queued ==> SubmitCode(s, w, target, caller) == 0
    ensures !s.items[w].canceling && !s.items[w].queued ==>
      var t := if s.items[w].running || target.None? then s.items[w].queue else target;
      var rc := QueueCode(s, t, caller);
      && SubmitCode(s, w, target, caller) == (if rc < 0 then rc else if s.items[w].running then 2 else 1)
      && (rc >= 0 ==>
          Submit(s, w, target, caller) ==
          WithItem(Listed(s, w, t.value), w, s.items[w].(queued := true, queue := t, submits := s.items[w].submits + 1)))
    ensures SubmitCode(s, w, target, caller) <= 0 ==> Submit(s, w, target, caller) == s
  {
  }

  method SubmitTo(k: Memory, w: nat, target: Option<nat>, caller: Option<nat>) returns (ret: int)
    requires k.Reps() && Inv(k.state) && w < |k.state.items|
    modifies k
    ensures k.Reps() && k.state == Submit(old(k.state), w, target, caller)
    ensures ret == SubmitCode(old(k.state), w, target, caller)
  {
    hide Inv, Free, Memory.Reps, Submit, SubmitCode, QueueCode, Listed, WithItem;
    ItemAt(k.state, w);
    SubmitIs(k.state, w, target, caller);
    if !k.state.items[w].queued {
      WorkFree(k.state, w);
    }
    ret := 0;
    if k.Flag(w, CANCELING) {
      ret := -EBUSY;
    } else if !k.Flag(w, QUEUED) {
      ret := 1;
      var queue := target;
      if queue.None? {
        queue := k.QueueOf(w);
      }
      if k.Flag(w, RUNNING) {
        queue := k.QueueOf(w);
        ret := 2;
      }
      var rc := QueueSubmit(k, queue, w, caller);
      if rc < 0 {
        ret := rc;
      } else {
        Folds(k.state);
        k.SetFlag(w, QUEUED, true);
        k.SetQueue(w, queue);
        k.NoteItem(w, k.state.items[w].submits + 1, k.state.items[w].runs);
      }
    }
  }

  method SubmitToQueue(k: Memory, w: nat, target: Option<nat>, caller: Option<nat>) returns (ret: int)
    requires k.Reps() && Inv(k.state) && w < |k.state.items|
    modifies k
    ensures k.Reps() && k.state == Submit(old(k.state), w, target, caller) && Inv(k.state)
    ensures ret == SubmitCode(old(k.state), w, target, caller)
  {
    hide Inv, Memory.Reps, Submit, SubmitCode;
    SubmitInv(k.state, w, target, caller);
    ret := SubmitTo(k, w, target, caller);
  }

  // ----- Flush -----

  lemma AddFlusherIs(s: State, w: nat, q: nat)
    requires w < |s.items| && q < |s.queues|
    ensures var p := Find(s.queues[q].pending, Work(w));
      AddFlusher(s, w, q) == WithQueue(s.(flushes := s.flushes + [Flush(w, q, s.items[w].submits, true, false, false)]), q, s.queues[q].(
        pending := InsertAt(s.queues[q].pending, if p < |s.queues[q].pending| then p + 1 else 0, Flusher(|s.flushes|)), asleep := false))
  {
  }

  /** Link a node right behind the item if that is pending, else first. */
  method LinkFlusher(k: Memory, q: nat, w: nat, n: Node, inList: bool)
    requires k.Reps() && q < |k.state.queues| && Free(k.state.queues, n) && (inList <==> Work(w) in k.state.queues[q].pending)
    modifies k
    ensures k.Reps()
    ensures var list := old(k.state).queues[q].pending;
      var p := Find(list, Work(w));
      k.state == WithQueue(old(k.state), q, old(k.state).queues[q].(pending := InsertAt(list, if p < |list| then p + 1 else 0, n)))
  {
    hide Free, Memory.Reps, InsertAt, WithQueue;
    CountIn(k.state.queues[q].pending, Work(w));
    hide Find;
    if inList {
      k.InsertBehind(q, Work(w), n);
    } else {
      k.Prepend(q, n);
    }
  }

  /** Put a new flusher right behind the item if it is pending, else first, and wake the thread. */
  method QueueFlusher(k: Memory, q: nat, w: nat)
    requires k.Reps() && Inv(k.state) && q < |k.state.queues| && w < |k.state.items|
    modifies k
    ensures k.Reps() && k.state == AddFlusher(old(k.state), w, q)
  {
    hide Inv, Free, Memory.Reps, InsertAt, AddFlusher, WithQueue, Find;
    FlusherFree(k.state);
    AddFlusherIs(k.state, w, q);
    var inList := k.Contains(q, Work(w));
    var f := k.NewFlusher(Flush(w, q, k.state.items[w].submits, true, false, false));
    Folds(k.state);
    LinkFlusher(k, q, w, Flusher(f), inList);
    Notify(k, q);
  }

  method FlushLocked(k: Memory, w: nat) returns (need: bool)
    requires k.Reps() && Inv(k.state) && w < |k.state.items|
    modifies k
    ensures k.Reps() && k.state == FlushWork(old(k.state), w)
    ensures need == NeedsFlush(old(k.state).items[w])
  {
    hide Inv, Memory.Reps, AddFlusher;
    ItemAt(k.state, w);
    need := k.Flag(w, QUEUED) || k.Flag(w, RUNNING);
    if need {
      QueueFlusher(k, k.QueueOf(w).value, w);
    }
  }

  /** Flush: whether the caller has to wait for the flusher. */
  method FlushItem(k: Memory, w: nat) returns (need: bool)
    requires k.Reps() && Inv(k.state) && Enabled(k.state, DoFlush(w))
    modifies k
    ensures k.Reps() && k.state == FlushWork(old(k.state), w) && Inv(k.state)
    ensures need <==> Pends(old(k.state), w) || Runs(old(k.state), w)
    ensures |k.state.flushes| == |old(k.state).flushes| + (if need then 1 else 0)
    ensures !need ==> k.state == old(k.state) && Over(k.state.items[w], k.state.items[w].submits)
  {
    hide Inv, Memory.Reps, Find, InsertAt, Pends, Runs;
    FlushWorkInv(k.state, w);
    FlagsMean(k.state, w);
    ItemAt(k.state, w);
    need := FlushLocked(k, w);
  }

  // ----- Cancel -----

  method QueueRemove(k: Memory, q: nat, w: nat)
    requires k.Reps() && q < |k.state.queues| && w < |k.state.items| && k.state.items[w].queue == Some(q)
    modifies k
    ensures k.Reps() && k.state == Dequeue(old(k.state), w)
  {
    hide Memory.Reps, Removed;
    var was := k.TestAndClear(w, QUEUED);
    if was {
      k.FindAndRemove(q, Work(w));
    } else {
      assert k.state.items == old(k.state).items;
    }
  }

  method CancelAsyncLocked(k: Memory, w: nat) returns (ret: int)
    requires k.Reps() && Inv(k.state) && w < |k.state.items|
    modifies k
    ensures k.Reps() && k.state == CancelAsync(old(k.state), w)
    ensures ret == Busy(k.state.items[w])
  {
    ItemAt(k.state, w);
    hide Inv, Memory.Reps, Removed;
    if !k.Flag(w, CANCELING) && k.QueueOf(w).Some? {
      QueueRemove(k, k.QueueOf(w).value, w);
    }
    assert k.state == if old(k.state).items[w].canceling then old(k.state) else Dequeue(old(k.state), w);
    hide Dequeue;
    ret := k.BusyGet(w);
    if ret != 0 {
      k.SetFlag(w, CANCELING, true);
      ret := k.BusyGet(w);
    }
  }

  method CancelSyncLocked(k: Memory, w: nat) returns (wait: bool)
    requires k.Reps() && w < |k.state.items|
    modifies k
    ensures k.Reps() && k.state == Await(old(k.state), w)
    ensures wait == old(k.state).items[w].canceling
  {
    hide Memory.Reps;
    wait := k.Flag(w, CANCELING);
    if wait {
      k.AddCanceller(w);
    }
  }

  method CancelItem(k: Memory, w: nat) returns (ret: int)
    requires k.Reps() && Inv(k.state) && Enabled(k.state, DoCancel(w))
    modifies k
    ensures k.Reps() && k.state == CancelAsync(old(k.state), w) && w < |k.state.items| && Inv(k.state)
    ensures ret == Busy(k.state.items[w]) && (ret != 0 <==> Runs(old(k.state), w))
  {
    hide Inv, Memory.Reps, Dequeue, MarkCanceling, Runs;
    CancelInv(k.state, w);
    PlainCancelAnswer(k.state, w);
    hide CancelAsync;
    ret := CancelAsyncLocked(k, w);
  }

  /** Cancel and say whether the item was busy, and whether the caller has to wait. */
  method CancelSyncItem(k: Memory, w: nat) returns (pending: bool, wait: bool)
    requires k.Reps() && Inv(k.state) && Enabled(k.state, DoCancelSync(w))
    modifies k
    ensures k.Reps() && k.state == CancelSync(old(k.state), w) && Inv(k.state)
    ensures pending <==> Pends(old(k.state), w) || Runs(old(k.state), w)
    ensures wait <==> Runs(old(k.state), w)
  {
    hide Inv, Memory.Reps, CancelAsync, Pends, Runs;
    CancelInv(k.state, w);
    ItemAt(k.state, w);
    PlainCancelAnswer(k.state, w);
    SyncAnswer(k.state, w);
    CancelAsyncSize(k.state, w);
    pending := k.BusyGet(w) != 0;
    wait := false;
    if pending {
      var busy := CancelAsyncLocked(k, w);
      wait := CancelSyncLocked(k, w);
    }
  }

  /** Cancellation is complete. */
  method FinalizeCancel(k: Memory, w: nat)
    requires k.Reps() && w < |k.state.items|
    modifies k
    ensures k.Reps() && k.state == Finalize(old(k.state), w)
  {
    hide Memory.Reps, Without, IdsFor;
    k.SetFlag(w, CANCELING, false);
    k.SignalAll(w);
  }

  // ----- Delayable work -----

  method UnscheduleLocked(k: Memory, w: nat) returns (ret: bool)
    requires k.Reps() && w < |k.state.items|
    modifies k
    ensures k.Reps() && k.state == Unschedule(old(k.state), w)
    ensures ret == old(k.state).items[w].delayed
  {
    hide Memory.Reps;
    ret := k.TestAndClear(w, DELAYED);
    if ret {
      k.SetDelay(w, k.DelayQueueOf(w), false);
    } else {
      assert k.state.items == old(k.state).items;
    }
  }

  method ScheduleLocked(k: Memory, w: nat, target: Option<nat>, delay: Delay, caller: Option<nat>) returns (ret: int)
    requires k.Reps() && Inv(k.state) && w < |k.state.items| && !k.state.items[w].linked
    modifies k
    ensures k.Reps() && k.state == ScheduleFor(old(k.state), w, target, delay, caller)
    ensures ret == ScheduleForCode(old(k.state), w, target, delay, caller)
  {
    hide Inv, Memory.Reps, Submit, SubmitCode;
    ret := 1;
    if delay.NoWait? {
      ret := SubmitTo(k, w, target, caller);
      return;
    }
    k.SetFlag(w, DELAYED, true);
    k.SetDelay(w, target, !delay.Forever?);
  }

  method ScheduleForQueue(k: Memory, w: nat, target: Option<nat>, delay: Delay, caller: Option<nat>) returns (ret: int)
    requires k.Reps() && Inv(k.state) && Enabled(k.state, DoSchedule(w, target, delay, caller))
    modifies k
    ensures k.Reps() && k.state == Schedule(old(k.state), w, target, delay, caller) && Inv(k.state)
    ensures ret ==
      if old(k.state).items[w].canceling || old(k.state).items[w].queued || old(k.state).items[w].delayed then 0
      else ScheduleForCode(old(k.state), w, target, delay, caller)
  {
    hide Inv, Memory.Reps, ScheduleFor, ScheduleForCode;
    ScheduleInv(k.state, w, target, delay, caller);
    ItemAt(k.state, w);
    ret := 0;
    var busy := k.BusyGet(w);
    if busy == 0 || busy == 1 {
      ret := ScheduleLocked(k, w, target, delay, caller);
    }
  }

  method RescheduleForQueue(k: Memory, w: nat, target: Option<nat>, delay: Delay, caller: Option<nat>) returns (ret: int)
    requires k.Reps() && Inv(k.state) && Enabled(k.state, DoReschedule(w, target, delay, caller))
    modifies k
    ensures k.Reps() && k.state == Reschedule(old(k.state), w, target, delay, caller) && Inv(k.state)
    ensures ret == ScheduleForCode(Unschedule(old(k.state), w), w, target, delay, caller)
  {
    hide Inv, Memory.Reps, ScheduleFor, ScheduleForCode;
    ScheduleInv(k.state, w, target, delay, caller);
    UnscheduleInv(k.state, w);
    ItemAt(k.state, w);
    var unscheduled := UnscheduleLocked(k, w);
    ret := ScheduleLocked(k, w, target, delay, caller);
  }

  /** The timeout of the item has expired and is no longer linked. */
  method WorkTimeout(k: Memory, w: nat)
    requires k.Reps() && Inv(k.state) && Enabled(k.state, DoExpire(w)) && k.state.items[w].linked
    modifies k
    ensures k.Reps() && k.state == Expire(old(k.state), w) && Inv(k.state)
  {
    hide Inv, Memory.Reps, Submit, SubmitCode;
    DelayableInv(k.state, w, None);
    UnscheduleInv(k.state, w);
    ItemAt(k.state, w);
    k.SetDelay(w, k.DelayQueueOf(w), false);
    var was := k.TestAndClear(w, DELAYED);
    assert k.state == Unschedule(old(k.state), w);
    if was {
      var ret := SubmitTo(k, w, k.DelayQueueOf(w), None);
    }
  }

  method CancelDelayableLocked(k: Memory, w: nat) returns (ret: int)
    requires k.Reps() && Inv(k.state) && w < |k.state.items|
    modifies k
    ensures k.Reps() && k.state == CancelDelayable(old(k.state), w)
    ensures ret == Busy(k.state.items[w])
  {
    hide Inv, Memory.Reps, Dequeue, MarkCanceling;
    UnscheduleInv(k.state, w);
    var unscheduled := UnscheduleLocked(k, w);
    ret := CancelAsyncLocked(k, w);
  }

  lemma CancelDelayableSize(s: State, w: nat)
    requires w < |s.items|
    ensures |CancelDelayable(s, w).items| == |s.items| && CancelDelayable(s, w).cancelIds == s.cancelIds
  {
  }

  method CancelDelayableItem(k: Memory, w: nat) returns (ret: int)
    requires k.Reps() && Inv(k.state) && Enabled(k.state, DoCancelDelayable(w))
    modifies k
    ensures k.Reps() && k.state == CancelDelayable(old(k.state), w) && w < |k.state.items| && Inv(k.state)
    ensures ret == Busy(k.state.items[w]) && (ret != 0 <==> Runs(old(k.state), w))
  {
    hide Inv, Memory.Reps, CancelDelayable, Runs;
    DelayableInv(k.state, w, None);
    CancelAnswer(k.state, w);
    ret := CancelDelayableLocked(k, w);
  }

  method CancelDelayableSyncItem(k: Memory, w: nat) returns (pending: bool, wait: bool)
    requires k.Reps() && Inv(k.state) && Enabled(k.state, DoCancelDelayableSync(w))
    modifies k
    ensures k.Reps() && k.state == CancelDelayableSync(old(k.state), w) && Inv(k.state)
    ensures pending <==> Pends(old(k.state), w) || Runs(old(k.state), w) || old(k.state).items[w].delayed
    ensures wait <==> Runs(old(k.state), w)
  {
    hide Inv, Memory.Reps, CancelDelayable, Pends, Runs;
    DelayableInv(k.state, w, None);
    CancelDelayableSize(k.state, w);
    CancelAnswer(k.state, w);
    SyncAnswer(k.state, w);
    pending := k.BusyGet(w) != 0;
    wait := false;
    if pending {
      var busy := CancelDelayableLocked(k, w);
      wait := CancelSyncLocked(k, w);
    }
  }

  lemma FlushSize(s: State, w: nat)
    requires Inv(s) && w < |s.items|
    ensures |FlushWork(s, w).flushes| == |s.flushes| + (if NeedsFlush(s.items[w]) then 1 else 0)
  {
    hide Find, InsertAt;
    assert ItemOk(s.items[w], |s.queues|);
  }

  method FlushDelayableItem(k: Memory, w: nat, caller: Option<nat>) returns (need: bool)
    requires k.Reps() && Inv(k.state) && Enabled(k.state, DoFlushDelayable(w, caller))
    modifies k
    ensures k.Reps() && k.state == FlushDelayable(old(k.state), w, caller) && Inv(k.state)
    ensures need == (|k.state.flushes| > |old(k.state).flushes|)
    ensures w < |k.state.items| && (need <==> Pends(k.state, w) || Runs(k.state, w))
  {
    hide Inv, Memory.Reps, Submit, SubmitCode, AddFlusher, Pends, Runs;
    FlushDelayableAnswer(k.state, w, caller);
    DelayableInv(k.state, w, caller);
    UnscheduleInv(k.state, w);
    SubmitInv(Unschedule(k.state, w), w, k.state.items[w].delayQueue, caller);
    SubmitSize(Unschedule(k.state, w), w, k.state.items[w].delayQueue, caller);
    if k.BusyGet(w) == 0 {
      return false;
    }
    var unscheduled := UnscheduleLocked(k, w);
    if unscheduled {
      var ret := SubmitTo(k, w, k.DelayQueueOf(w), caller);
    }
    FlushSize(k.state, w);
    need := FlushLocked(k, w);
  }

  // ----- The thread of a queue -----

  lemma LookIs(s: State, q: nat)
    requires Inv(s) && q < |s.queues| && s.queues[q].started && !s.queues[q].asleep && s.queues[q].current.None?
    ensures s.queues[q].pending == [] ==> Look(s, q) == WithQueue(s, q, Rest(s.queues[q]))
    ensures s.queues[q].pending != [] ==>
      var n := s.queues[q].pending[0];
      var t := WithQueue(s, q, s.queues[q].(busy := true, pending := s.queues[q].pending[1..], current := Some(n)));
      && Named(n, |s.items|, |s.flushes|)
      && (n.Work? ==> Look(s, q) == WithItem(t, n.w, s.items[n.w].(running := true, queued := false, runs := s.items[n.w].submits)))
      && (n.Flusher? ==> Look(s, q) == WithFlush(t, n.f, s.flushes[n.f].(waiting := false, running := true)))
  {
  }

  /** One pass of the thread under the lock: what it is to handle, or none and it sleeps. */
  method WorkerLook(k: Memory, q: nat) returns (work: Option<Node>)
    requires k.Reps() && Inv(k.state) && q < |k.state.queues|
    requires k.state.queues[q].started && !k.state.queues[q].asleep && k.state.queues[q].current.None?
    modifies k
    ensures k.Reps() && k.state == Look(old(k.state), q) && Inv(k.state) && q < |k.state.queues|
    ensures work == k.state.queues[q].current && (work.None? <==> old(k.state).queues[q].pending == [])
  {
    hide Inv, Memory.Reps, Look, WithQueue, WithItem, WithFlush;
    LookInv(k.state, q);
    LookIs(k.state, q);
    Folds(k.state);
    work := k.Get(q);
    if work.Some? {
      k.SetQueueFlag(q, BUSY, true);
      k.NoteCurrent(q, work);
      Folds(k.state);
      match work.value
      case Work(w) =>
        k.SetFlag(w, RUNNING, true);
        k.SetFlag(w, QUEUED, false);
        k.NoteItem(w, k.state.items[w].submits, k.state.items[w].submits);
      case Flusher(f) =>
        k.SetFlusherRunning(f, true);
        k.NoteWaiting(f, false);
    } else {
      if k.QueueFlag(q, DRAIN) {
        k.SetQueueFlag(q, DRAIN, false);
        k.SetDrainers(q, []);
      }
      k.SetAsleep(q, true);
    }
  }

  /** The handler of a flusher. */
  method HandleFlush(k: Memory, q: nat, f: nat)
    requires k.Reps() && Inv(k.state) && q < |k.state.queues| && k.state.queues[q].current == Some(Flusher(f))
    modifies k
    ensures k.Reps() && k.state == Handle(old(k.state), q) && Inv(k.state)
  {
    hide Inv, Memory.Reps;
    HandleInv(k.state, q);
    QueueAt(k.state, q);
    k.GiveFlusher(f);
  }

  lemma EndIs(s: State, q: nat)
    requires Inv(s) && q < |s.queues| && s.queues[q].current.Some?
    ensures var n := s.queues[q].current.value;
      && Named(n, |s.items|, |s.flushes|)
      && (n.Work? ==> var t := WithItem(s, n.w, s.items[n.w].(running := false));
          && |Finalize(t, n.w).queues| == |s.queues| && Finalize(t, n.w).queues[q] == s.queues[q]
          && End(s, q) == WithQueue(if s.items[n.w].canceling then Finalize(t, n.w) else t, q, s.queues[q].(busy := false, current := None)))
      && (n.Flusher? && s.flushes[n.f].given ==>
          End(s, q) == WithQueue(WithFlush(s, n.f, s.flushes[n.f].(running := false)), q, s.queues[q].(busy := false, current := None)))
  {
    hide Without, IdsFor;
  }

  /** The node that was handled is not running any more, and a cancellation of it is complete. */
  method EndNode(k: Memory, q: nat, work: Node)
    requires k.Reps() && Inv(k.state) && q < |k.state.queues| && k.state.queues[q].current == Some(work)
    requires work.Flusher? && work.f < |k.state.flushes| ==> k.state.flushes[work.f].given
    modifies k
    ensures k.Reps() && q < |k.state.queues| && k.state.queues[q] == old(k.state).queues[q]
    ensures End(old(k.state), q) == WithQueue(k.state, q, k.state.queues[q].(busy := false, current := None))
  {
    hide Inv, Memory.Reps, End, Finalize, WithQueue, WithItem, WithFlush;
    EndIs(k.state, q);
    match work {
    case Work(w) =>
      k.SetFlag(w, RUNNING, false);
      if k.Flag(w, CANCELING) {
        FinalizeCancel(k, w);
      }
    case Flusher(f) =>
      k.SetFlusherRunning(f, false);
    }
  }

  /** The handler has returned. */
  method WorkerEnd(k: Memory, q: nat, work: Node)
    requires k.Reps() && Inv(k.state) && q < |k.state.queues| && k.state.queues[q].current == Some(work)
    requires work.Flusher? && work.f < |k.state.flushes| ==> k.state.flushes[work.f].given
    modifies k
    ensures k.Reps() && k.state == End(old(k.state), q) && Inv(k.state)
  {
    hide Inv, Memory.Reps, End, WithQueue;
    EndInv(k.state, q);
    EndNode(k, q, work);
    Folds(k.state);
    k.SetQueueFlag(q, BUSY, false);
    k.NoteCurrent(q, None);
  }

  // ----- Queue operations -----

  method QueueStart(k: Memory, q: nat)
    requires k.Reps() && Inv(k.state) && q < |k.state.queues| && !k.state.queues[q].started
    modifies k
    ensures k.Reps() && k.state == Start(old(k.state), q) && Inv(k.state)
  {
    hide Inv, Memory.Reps;
    QueueOpsInv(k.state, q, false, 0);
    QueueAt(k.state, q);
    k.Init(q);
    k.SetAsleep(q, false);
    k.SetDrainers(q, []);
    k.ResetFlags(q);
  }

  lemma DrainIs(s: State, q: nat, plug: bool, thread: nat)
    requires q < |s.queues|
    ensures Drain(s, q, plug, thread) == if !DrainWaits(s.queues[q], plug) then s else
      WithQueue(s, q, s.queues[q].(drain := true, plugged := s.queues[q].plugged || plug, asleep := false,
                                   drainers := s.queues[q].drainers + [thread]))
  {
  }

  method QueueDrain(k: Memory, q: nat, plug: bool, thread: nat) returns (waits: bool)
    requires k.Reps() && Inv(k.state) && q < |k.state.queues|
    modifies k
    ensures k.Reps() && k.state == Drain(old(k.state), q, plug, thread) && Inv(k.state)
    ensures waits <==> old(k.state).queues[q].pending != [] || old(k.state).queues[q].current.Some? || old(k.state).queues[q].drain || plug
  {
    hide Inv, Memory.Reps, Drain, WithQueue;
    QueueOpsInv(k.state, q, plug, thread);
    QueueAt(k.state, q);
    Folds(k.state);
    DrainIs(k.state, q, plug, thread);
    waits := k.QueueFlag(q, BUSY) || k.QueueFlag(q, DRAIN) || plug || !k.IsEmpty(q);
    if waits {
      k.SetQueueFlag(q, DRAIN, true);
      if plug {
        k.SetQueueFlag(q, PLUGGED, true);
      }
      Notify(k, q);
      k.SetDrainers(q, k.DrainersOf(q) + [thread]);
    }
  }

  method QueueUnplug(k: Memory, q: nat) returns (ret: int)
    requires k.Reps() && Inv(k.state) && q < |k.state.queues|
    modifies k
    ensures k.Reps() && k.state == Unplug(old(k.state), q) && Inv(k.state)
    ensures ret == if old(k.state).queues[q].plugged then 0 else -EALREADY
  {
    hide Inv, Memory.Reps;
    QueueOpsInv(k.state, q, false, 0);
    ret := -EALREADY;
    if k.QueueFlag(q, PLUGGED) {
      k.SetQueueFlag(q, PLUGGED, false);
      ret := 0;
    } else {
      assert k.state.queues[q := k.state.queues[q].(plugged := false)] == k.state.queues;
    }
  }
}
