/** What each call on a work queue (kernel/work.c) does and answers, in terms of the lists and of what the threads are handling. */
module WorkAnswers {
  import opened Lists
  import opened WorkModel
  import opened WorkRuns

  // ----- Where an item is -----

  /** The item is on a pending list. */
  ghost predicate Pends(s: State, w: nat) { exists q: nat :: q < |s.queues| && Work(w) in s.queues[q].pending }

  ghost predicate RunsOn(s: State, w: nat, q: nat) { q < |s.queues| && s.queues[q].current == Some(Work(w)) }

  /** A thread is in the handler of the item. */
  ghost predicate Runs(s: State, w: nat) { exists q: nat :: RunsOn(s, w, q) }

  lemma ListedIff(s: State, w: nat, q: nat)
    requires Inv(s) && w < |s.items| && q < |s.queues|
    ensures Work(w) in s.queues[q].pending <==> s.items[w].queued && s.items[w].queue == Some(q)
    ensures RunsOn(s, w, q) <==> s.items[w].running && s.items[w].queue == Some(q)
  {
    assert Rel(w, s.items[w], q, s.queues[q]);
    hide Inv, Count;
    CountIn(s.queues[q].pending, Work(w));
  }

  /** The flags say where the item is. */
  lemma FlagsMean(s: State, w: nat)
    requires Inv(s) && w < |s.items|
    ensures s.items[w].queued <==> Pends(s, w)
    ensures s.items[w].running <==> Runs(s, w)
    ensures s.items[w].canceling ==> Runs(s, w) && !Pends(s, w)
  {
    assert ItemOk(s.items[w], |s.queues|);
    hide Inv;
    if s.items[w].queued || s.items[w].running {
      ListedIff(s, w, s.items[w].queue.value);
    }
    if Pends(s, w) {
      var q: nat :| q < |s.queues| && Work(w) in s.queues[q].pending;
      ListedIff(s, w, q);
    }
    if Runs(s, w) {
      var q: nat :| RunsOn(s, w, q);
      ListedIff(s, w, q);
    }
  }

  /** What k_work_busy_get() says. */
  lemma BusyAnswer(s: State, w: nat)
    requires Inv(s) && w < |s.items|
    ensures Busy(s.items[w]) ==
      (if Runs(s, w) then 1 else 0) + (if s.items[w].canceling then 2 else 0) + (if Pends(s, w) then 4 else 0)
      + (if s.items[w].delayed then 8 else 0)
  {
    FlagsMean(s, w);
    hide Inv, Pends, Runs;
  }

  // ----- Submission -----

  /** Where a submission goes: to the queue that runs the item, else to the one asked for, else to the last one. */
  ghost predicate GoesTo(s: State, w: nat, target: Option<nat>, q: nat)
    requires w < |s.items|
  {
    q < |s.queues| && if Runs(s, w) then RunsOn(s, w, q) else if target.Some? then target == Some(q) else s.items[w].queue == Some(q)
  }

  /** A queue takes work when it is started, from others only when it does not drain, and not while it is plugged and not draining. */
  ghost predicate Open(queue: WorkQ, fromOwnThread: bool) {
    queue.started && (queue.drain ==> fromOwnThread) && (queue.plugged ==> queue.drain)
  }

  lemma GoesIs(s: State, w: nat, target: Option<nat>, q: nat)
    requires Inv(s) && w < |s.items|
    ensures GoesTo(s, w, target, q) <==> q < |s.queues| && Target(s.items[w], target) == Some(q)
  {
    assert ItemOk(s.items[w], |s.queues|);
    hide Inv;
    FlagsMean(s, w);
    if q < |s.queues| {
      ListedIff(s, w, q);
    }
  }

  /**
   An item gets on to the list of its queue, last and with the thread awake, if and only if it is on no list, not canceling, and
   the queue is open to the caller; otherwise nothing changes and the code says why.
   */
  lemma SubmitAnswer(s: State, w: nat, target: Option<nat>, caller: Option<nat>, q: nat)
    requires Inv(s) && w < |s.items| && GoesTo(s, w, target, q)
    ensures var u, code, queue := Submit(s, w, target, caller), SubmitCode(s, w, target, caller), s.queues[q];
      if !Pends(s, w) && !s.items[w].canceling && Open(queue, caller == Some(q)) then
        && code == (if Runs(s, w) then 2 else 1)
        && u.queues == s.queues[q := queue.(pending := queue.pending + [Work(w)], asleep := false)]
        && u.items == s.items[w := s.items[w].(queued := true, queue := Some(q), submits := s.items[w].submits + 1)]
        && u.flushes == s.flushes && u.cancels == s.cancels && u.signalled == s.signalled
      else
        && u == s
        && code == (if s.items[w].canceling then -EBUSY else if Pends(s, w) then 0 else if !queue.started then -ENODEV else -EBUSY)
  {
    GoesIs(s, w, target, q);
    FlagsMean(s, w);
    hide Inv, Pends, Runs, GoesTo;
  }

  /** A submission that goes nowhere. */
  lemma SubmitNowhere(s: State, w: nat, target: Option<nat>, caller: Option<nat>)
    requires Inv(s) && w < |s.items| && forall q: nat :: !GoesTo(s, w, target, q)
    ensures Submit(s, w, target, caller) == s
    ensures !s.items[w].canceling && !Pends(s, w) ==> SubmitCode(s, w, target, caller) == -EINVAL
  {
    FlagsMean(s, w);
    var t := Target(s.items[w], target);
    if t.Some? {
      GoesIs(s, w, target, t.value);
    }
    hide Inv, Pends, Runs, GoesTo;
  }

  // ----- Flush -----

  /**
   A flush returns at once if and only if the item is on no list and in no handler: then every instance submitted so far is over.
   Otherwise a new flusher is right behind the item on its list, or first on the list of the queue that runs it.
   */
  lemma FlushAnswer(s: State, w: nat)
    requires Inv(s) && w < |s.items|
    ensures var t, f := FlushWork(s, w), |s.flushes|;
      && (|t.flushes| == f <==> !Pends(s, w) && !Runs(s, w))
      && (|t.flushes| == f ==> t == s && Over(s.items[w], s.items[w].submits))
      && (|t.flushes| != f ==>
            && t.flushes == s.flushes + [t.flushes[f]] && t.items == s.items && t.cancels == s.cancels
            && exists q: nat, p: nat :: q < |s.queues| && p <= |s.queues[q].pending|
                 && t.queues == s.queues[q := s.queues[q].(pending := InsertAt(s.queues[q].pending, p, Flusher(f)), asleep := false)]
                 && (if Pends(s, w) then p > 0 && s.queues[q].pending[p - 1] == Work(w) else p == 0 && RunsOn(s, w, q)))
  {
    FlagsMean(s, w);
    assert ItemOk(s.items[w], |s.queues|);
    hide Inv, Pends, Runs;
    if s.items[w].queued || s.items[w].running {
      var q := s.items[w].queue.value;
      ListedIff(s, w, q);
      var list := s.queues[q].pending;
      CountIn(list, Work(w));
      var p := Find(list, Work(w));
      hide Find;
      var i := if p < |list| then p + 1 else 0;
      assert FlushWork(s, w).queues == s.queues[q := s.queues[q].(pending := InsertAt(list, i, Flusher(|s.flushes|)), asleep := false)];
    }
  }

  // ----- Cancel -----

  /** Whatever is on the list stays, in its order, but for the item. */
  ghost predicate TakenOff(s: State, t: State, w: nat) {
    && |t.queues| == |s.queues|
    && forall q: nat :: q < |s.queues| ==> t.queues[q] == s.queues[q].(pending := Removed(s.queues[q].pending, Work(w)))
  }

  ghost predicate OthersSame(s: State, t: State, w: nat) {
    |t.items| == |s.items| && forall v: nat :: v < |s.items| && v != w ==> t.items[v] == s.items[v]
  }

  lemma NotListed(list: seq<Node>, n: Node)
    requires n !in list
    ensures Removed(list, n) == list
  {
    CountIn(list, n);
  }

  /**
   A cancelled item is on no list and its timeout is stopped.  It is canceling if and only if a thread is in its handler, and
   nothing but the item and its place on a list has changed.
   */
  lemma CancelAnswer(s: State, w: nat)
    requires Inv(s) && w < |s.items|
    ensures var t := CancelDelayable(s, w);
      && TakenOff(s, t, w) && OthersSame(s, t, w) && t.cancels == s.cancels && t.flushes == s.flushes
      && t.items[w] == s.items[w].(queued := false, delayed := false, linked := false, canceling := Runs(s, w))
      && Busy(t.items[w]) == (if Runs(s, w) then 3 else 0)
      && (!s.items[w].delayed ==> CancelAsync(s, w) == t)
  {
    FlagsMean(s, w);
    assert ItemOk(s.items[w], |s.queues|);
    var t := CancelDelayable(s, w);
    forall q: nat | q < |s.queues| ensures |t.queues| == |s.queues| && t.queues[q] == s.queues[q].(pending := Removed(s.queues[q].pending, Work(w))) {
      ListedIff(s, w, q);
      if Work(w) !in s.queues[q].pending {
        NotListed(s.queues[q].pending, Work(w));
      }
      hide Inv, Removed, Pends, Runs;
    }
    hide Inv, Removed, Pends, Runs;
  }

  /** The same for an item that is not delayable. */
  lemma PlainCancelAnswer(s: State, w: nat)
    requires Inv(s) && w < |s.items| && !s.items[w].delayable
    ensures var t := CancelAsync(s, w);
      && TakenOff(s, t, w) && OthersSame(s, t, w) && t.cancels == s.cancels && t.flushes == s.flushes
      && t.items[w] == s.items[w].(queued := false, canceling := Runs(s, w))
      && Busy(t.items[w]) == (if Runs(s, w) then 3 else 0)
  {
    CancelAnswer(s, w);
    assert ItemOk(s.items[w], |s.queues|);
    hide Inv, CancelDelayable, CancelAsync;
  }

  /** A synchronous cancel leaves a record to wait for if and only if a thread is in the handler. */
  lemma SyncAnswer(s: State, w: nat)
    requires Inv(s) && w < |s.items|
    ensures CancelDelayableSync(s, w) ==
      var t := CancelDelayable(s, w);
      if Runs(s, w) then t.(cancels := s.cancels + [Canceller(s.cancelIds, w)], cancelIds := s.cancelIds + 1) else t
    ensures !s.items[w].delayed ==> CancelSync(s, w) == CancelDelayableSync(s, w)
    ensures Busy(s.items[w]) != 0 <==> Pends(s, w) || Runs(s, w) || s.items[w].delayed
  {
    CancelAnswer(s, w);
    FlagsMean(s, w);
    assert ItemOk(s.items[w], |s.queues|);
    hide Inv, Pends, Runs, TakenOff, OthersSame;
    if Busy(s.items[w]) == 0 {
      assert !s.items[w].queued && !s.items[w].delayed && !s.items[w].canceling;
    }
  }

  // ----- Delayable work -----

  /** A delayed item is scheduled, for `target`; with no end its timeout is not linked. */
  ghost predicate Delayed(s: State, t: State, w: nat, target: Option<nat>, delay: Delay)
    requires w < |s.items|
  {
    && t == s.(items := t.items) && OthersSame(s, t, w)
    && t.items[w] == s.items[w].(delayed := true, delayQueue := target, linked := delay == After)
  }

  /** Scheduling does something only for an item that is on no list, not canceling and not delayed. */
  lemma ScheduleAnswer(s: State, w: nat, target: Option<nat>, delay: Delay, caller: Option<nat>)
    requires Inv(s) && w < |s.items|
    ensures var t := Schedule(s, w, target, delay, caller);
      if Pends(s, w) || s.items[w].canceling || s.items[w].delayed then t == s
      else if delay == NoWait then t == Submit(s, w, target, caller)
      else Delayed(s, t, w, target, delay)
  {
    FlagsMean(s, w);
    assert ItemOk(s.items[w], |s.queues|);
    hide Inv, Pends, Runs, Submit;
  }

  /** Rescheduling forgets the old delay, if any, whatever the state of the item. */
  lemma RescheduleAnswer(s: State, w: nat, target: Option<nat>, delay: Delay, caller: Option<nat>)
    requires Inv(s) && w < |s.items|
    ensures var t := Reschedule(s, w, target, delay, caller);
      var u := s.(items := s.items[w := s.items[w].(delayed := false, linked := false)]);
      if delay == NoWait then t == Submit(u, w, target, caller) else Delayed(s, t, w, target, delay)
  {
    assert ItemOk(s.items[w], |s.queues|);
    hide Inv, Submit;
    var it := s.items[w];
    assert !it.delayed ==> s.items[w := it.(delayed := false, linked := false)] == s.items;
  }

  /** The expiry of a linked timeout submits the item to where it was scheduled for; an unlinked one does not expire. */
  lemma ExpireAnswer(s: State, w: nat, q: nat)
    requires Inv(s) && w < |s.items|
    ensures var t := Expire(s, w);
      var u := s.(items := s.items[w := s.items[w].(delayed := false, linked := false)]);
      && (!s.items[w].linked ==> t == s)
      && (s.items[w].linked ==> t == Submit(u, w, s.items[w].delayQueue, None))
    ensures var t := Expire(s, w);
      s.items[w].linked && !Pends(s, w) && !Runs(s, w) && s.items[w].delayQueue == Some(q) && q < |s.queues|
      && s.queues[q].started && !s.queues[q].drain && !s.queues[q].plugged ==>
        && t.queues == s.queues[q := s.queues[q].(pending := s.queues[q].pending + [Work(w)], asleep := false)]
        && !t.items[w].delayed && !t.items[w].linked && t.items[w].submits == s.items[w].submits + 1
  {
    assert ItemOk(s.items[w], |s.queues|);
    FlagsMean(s, w);
    hide Inv, Pends, Runs;
  }

  /** What was scheduled for a queue is submitted to that queue when its time has come, unless it was cancelled. */
  lemma ScheduleExpires(s: State, w: nat, target: Option<nat>, caller: Option<nat>)
    requires Inv(s) && w < |s.items| && s.items[w].delayable
    ensures var v := Reschedule(s, w, target, After, caller);
      var u := s.(items := s.items[w := s.items[w].(delayed := false, linked := false, delayQueue := target)]);
      w < |v.items| && Expire(v, w) == Submit(u, w, target, None)
    ensures var v := CancelDelayable(Reschedule(s, w, target, After, caller), w); w < |v.items| && Expire(v, w) == v
  {
    RescheduleAnswer(s, w, target, After, caller);
    var v := Reschedule(s, w, target, After, caller);
    UnscheduleInv(s, w);
    UnscheduleKinds(s, w);
    ScheduleForInv(Unschedule(s, w), w, target, After, caller);
    hide Inv, Submit, Reschedule, CancelDelayable;
    CancelAnswer(v, w);
    var u := s.(items := s.items[w := s.items[w].(delayed := false, linked := false, delayQueue := target)]);
    assert v.(items := v.items[w := v.items[w].(delayed := false, linked := false)]).items == u.items;
    ExpireAnswer(v, w, 0);
  }

  /** The state in which a flush of delayable work looks for queued or running work: a delayed item has been submitted. */
  function Undelayed(s: State, w: nat, caller: Option<nat>): State
    requires w < |s.items|
  {
    if s.items[w].delayed then Submit(Unschedule(s, w), w, s.items[w].delayQueue, caller) else s
  }

  lemma UndelayedIs(s: State, w: nat, caller: Option<nat>)
    requires Inv(s) && w < |s.items|
    ensures var v := Undelayed(s, w, caller);
      && Inv(v) && |v.items| == |s.items| && v.flushes == s.flushes
      && v.items[w].submits == s.items[w].submits +
           (if s.items[w].delayed && SubmitCode(Unschedule(s, w), w, s.items[w].delayQueue, caller) > 0 then 1 else 0)
      && !v.items[w].delayed
  {
    UnscheduleInv(s, w);
    SubmitInv(Unschedule(s, w), w, s.items[w].delayQueue, caller);
    hide Inv;
  }

  /** A new flusher changes where no item is. */
  lemma FlushKeepsPlaces(s: State, w: nat)
    requires Inv(s) && w < |s.items|
    ensures Pends(FlushWork(s, w), w) <==> Pends(s, w)
    ensures Runs(FlushWork(s, w), w) <==> Runs(s, w)
    ensures FlushWork(s, w).items == s.items
  {
    FlushWorkInv(s, w);
    hide Inv;
    assert FlushWork(s, w).items == s.items;
    hide FlushWork;
    FlagsMean(s, w);
    FlagsMean(FlushWork(s, w), w);
  }

  /** A flush of delayable work is a plain flush once a delayed item has been submitted. */
  lemma FlushDelayableAnswer(s: State, w: nat, caller: Option<nat>)
    requires Inv(s) && w < |s.items|
    ensures var t, v := FlushDelayable(s, w, caller), Undelayed(s, w, caller);
      && Inv(v) && |v.items| == |s.items| && v.flushes == s.flushes && t == FlushWork(v, w) && t.items == v.items
      && !t.items[w].delayed && !t.items[w].linked
      && t.items[w].submits == s.items[w].submits +
           (if s.items[w].delayed && SubmitCode(Unschedule(s, w), w, s.items[w].delayQueue, caller) > 0 then 1 else 0)
      && (Pends(t, w) <==> Pends(v, w)) && (Runs(t, w) <==> Runs(v, w))
      && |t.flushes| == |s.flushes| + (if Pends(t, w) || Runs(t, w) then 1 else 0)
      && (|t.flushes| == |s.flushes| ==> Over(t.items[w], t.items[w].submits))
  {
    UndelayedIs(s, w, caller);
    var v := Undelayed(s, w, caller);
    assert ItemOk(s.items[w], |s.queues|) && ItemOk(v.items[w], |v.queues|);
    assert Busy(s.items[w]) == 0 ==> v == s && !s.items[w].queued && !s.items[w].running;
    assert Busy(s.items[w]) != 0 ==> FlushDelayable(s, w, caller) == FlushWork(v, w);
    hide Inv, FlushDelayable, Undelayed, Unschedule, SubmitCode, Over;
    FlagsMean(v, w);
    FlushKeepsPlaces(v, w);
    FlushAnswer(v, w);
    hide FlushWork, Pends, Runs, Busy;
  }

  // ----- Queues -----

  /**
   A drain returns at once if and only if nothing is pending, no handler runs, no drain is going on and none is to be plugged.
   Otherwise the thread is awake, others are shut out, and the caller waits behind those who wait already.
   */
  lemma DrainAnswer(s: State, q: nat, plug: bool, thread: nat)
    requires Inv(s) && q < |s.queues|
    ensures var t, queue := Drain(s, q, plug, thread), s.queues[q];
      if queue.pending == [] && queue.current.None? && !queue.drain && !plug then t == s
      else
        && t == s.(queues := t.queues) && |t.queues| == |s.queues|
        && (forall r: nat :: r < |s.queues| && r != q ==> t.queues[r] == s.queues[r])
        && t.queues[q].drain && !t.queues[q].asleep && t.queues[q].drainers == queue.drainers + [thread]
        && t.queues[q].plugged == (queue.plugged || plug) && t.queues[q].started == queue.started
        && t.queues[q].pending == queue.pending && t.queues[q].current == queue.current
  {
    assert QueueOk(s.queues[q]);
    hide Inv;
  }

  /** A queue is open to everybody once it is started, and again once it is unplugged and does not drain. */
  lemma StartOpens(s: State, q: nat)
    requires Inv(s) && q < |s.queues|
    ensures !s.queues[q].started ==> Open(Start(s, q).queues[q], false) && Start(s, q).queues[q].pending == []
    ensures s.queues[q].started && !s.queues[q].drain ==> Open(Unplug(s, q).queues[q], false)
    ensures Unplug(s, q).queues[q].pending == s.queues[q].pending && Unplug(s, q).queues[q].current == s.queues[q].current
  {
    hide Inv;
  }
}
