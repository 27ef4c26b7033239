/** No thread that can run is left out of the run queue. */
module SchedReady {
  import opened Lists
  import opened SchedModel
  import opened SchedRuns

  /** Every thread that can run is in the run queue, the idle thread and those in `but` apart. */
  ghost predicate NoneForgotten(s: State, but: set<nat>) {
    forall t: nat :: t < |s.threads| && t != s.idle && t !in but && Ready(s.threads[t]) ==> s.threads[t].queued
  }

  ghost predicate Touches(s: State, u: State, t: nat) {
    && |u.threads| == |s.threads| && u.idle == s.idle && u.current == s.current && |u.waitqs| == |s.waitqs|
    && forall x: nat :: x < |s.threads| && x != t ==> u.threads[x] == s.threads[x]
  }

  lemma Touched(s: State, u: State, t: nat, but: set<nat>)
    requires NoneForgotten(s, but) && Touches(s, u, t)
    ensures NoneForgotten(u, but + {t})
  {
  }

  lemma Settled(s: State, t: nat, but: set<nat>)
    requires NoneForgotten(s, but + {t}) && t < |s.threads| && (Ready(s.threads[t]) ==> s.threads[t].queued)
    ensures NoneForgotten(s, but - {t}) && NoneForgotten(s, but)
  {
  }

  lemma Recovered(s: State, t: nat, but: set<nat>)
    requires NoneForgotten(s, but + {t}) && t < |s.threads| && s.current < |s.threads|
    ensures NoneForgotten(MakeReady(s, t), but - {t}) && NoneForgotten(MakeReady(s, t), but) && Touches(s, MakeReady(s, t), t)
  {
    hide Rank, InsertAt;
    var u := MakeReady(s, t);
    assert NoneForgotten(u, but + {t});
    Settled(u, t, but);
  }

  // ----- What the pieces of a step touch -----

  lemma OffTouches(s: State, t: nat)
    requires t < |s.threads|
    ensures Touches(s, Off(s, t), t) && Off(s, t).threads[t] == s.threads[t].(queued := false)
  {
  }

  lemma UnpendTouches(s: State, t: nat)
    requires t < |s.threads|
    ensures Touches(s, Unpend(s, t), t) && Unpend(s, t).threads[t].dead == s.threads[t].dead
  {
  }

  lemma WakeKeeps(s: State, t: nat, but: set<nat>)
    requires NoneForgotten(s, but) && t < |s.threads| && s.current < |s.threads|
    ensures NoneForgotten(Wake(s, t), but) && Touches(s, Wake(s, t), t)
  {
    UnpendTouches(s, t);
    var u := Unpend(s, t);
    var v := SetTimer(u, t, false);
    Touched(s, v, t, but);
    hide Unpend, MakeReady;
    Recovered(v, t, but);
  }

  lemma {:induction false} WakeAllKeeps(s: State, q: nat, but: set<nat>)
    requires NoneForgotten(s, but) && q < |s.waitqs| && s.current < |s.threads|
    ensures NoneForgotten(WakeAll(s, q), but)
    decreases |s.waitqs[q]|
  {
    hide Wake, NoneForgotten;
    if s.waitqs[q] != [] && s.waitqs[q][0] < |s.threads| {
      WakeKeeps(s, s.waitqs[q][0], but);
      var u := Wake(s, s.waitqs[q][0]);
      if |u.waitqs[q]| < |s.waitqs[q]| {
        WakeAllKeeps(u, q, but);
      }
    }
  }

  /** A thread that ends up unable to run, or in the run queue, is not forgotten. */
  lemma Ends(s: State, u: State, t: nat, but: set<nat>)
    requires NoneForgotten(s, but) && Touches(s, u, t) && t < |s.threads| && (Ready(u.threads[t]) ==> u.threads[t].queued)
    ensures NoneForgotten(u, but) && NoneForgotten(u, but - {t})
  {
    Touched(s, u, t, but);
    Settled(u, t, but);
  }

  lemma PendKeeps(s: State, t: nat, q: Option<nat>, timed: bool, but: set<nat>)
    requires NoneForgotten(s, but) && t < |s.threads| && s.current < |s.threads| && (q.Some? ==> q.value < |s.waitqs|)
    ensures NoneForgotten(Pend(s, t, q, timed), but)
  {
    hide Rank, InsertAt, Removed;
    Ends(s, Pend(s, t, q, timed), t, but);
  }

  lemma ExpireKeeps(s: State, t: nat, but: set<nat>)
    requires NoneForgotten(s, but) && t < |s.threads| && s.current < |s.threads|
    ensures NoneForgotten(Expire(s, t), but) && (s.threads[t].timer ==> NoneForgotten(Expire(s, t), but - {t}))
  {
    if s.threads[t].timer {
      var u := SetTimer(s, t, false);
      if s.threads[t].dead {
        Ends(s, u, t, but);
      } else {
        UnpendTouches(u, t);
        var v := Unpend(u, t);
        var x := v.(threads := v.threads[t := v.threads[t].(prestart := false, suspended := false)]);
        Touched(s, x, t, but);
        hide Unpend, MakeReady, NoneForgotten;
        Recovered(x, t, but);
      }
    }
  }

  lemma KillKeeps(s: State, t: nat, but: set<nat>)
    requires NoneForgotten(s, but) && t < |s.threads| && s.current < |s.threads| && s.threads[t].joinq < |s.waitqs|
    ensures NoneForgotten(Kill(s, t), but)
  {
    if !s.threads[t].dead {
      var d := s.(threads := s.threads[t := s.threads[t].(dead := true)]);
      OffTouches(d, t);
      var u := Off(d, t);
      UnpendTouches(u, t);
      var v := SetTimer(Unpend(u, t), t, false);
      Ends(s, v, t, but);
      hide Off, Unpend;
      WakeAllKeeps(v, s.threads[t].joinq, but);
      hide WakeAll;
    }
  }

  lemma SetPrioKeeps(s: State, t: nat, prio: int, but: set<nat>)
    requires NoneForgotten(s, but) && t < |s.threads| && s.current < |s.threads|
    ensures NoneForgotten(SetPrio(s, t, prio), but)
  {
    hide Rank, InsertAt, Removed;
    if Ready(s.threads[t]) {
      Ends(s, SetPrio(s, t, prio), t, but);
    }
  }

  /** Back at the end of its priority. */
  lemma RequeueKeeps(s: State, t: nat, ok: bool, but: set<nat>)
    requires NoneForgotten(s, but) && t < |s.threads| && s.current < |s.threads|
    ensures NoneForgotten(UpdateCache(Queue(Dequeue(s, t), t), ok), but) && NoneForgotten(MoveToEnd(s, t), but)
  {
    hide Rank, InsertAt, Removed;
    Ends(s, UpdateCache(Queue(Dequeue(s, t), t), ok), t, but);
    Ends(s, MoveToEnd(s, t), t, but);
  }

  lemma ReadyKeeps(s: State, t: nat, th: Thread, but: set<nat>)
    requires NoneForgotten(s, but) && t < |s.threads| && s.current < |s.threads|
    ensures var u := MakeReady(s.(threads := s.threads[t := th]), t); NoneForgotten(u, but) && NoneForgotten(u, but - {t})
  {
    var u := s.(threads := s.threads[t := th]);
    Touched(s, u, t, but);
    hide MakeReady;
    Recovered(u, t, but);
  }

  lemma SleepKeeps(s: State, but: set<nat>)
    requires NoneForgotten(s, but) && s.current < |s.threads|
    ensures NoneForgotten(Sleep(s), but)
  {
    hide Removed;
    var c := s.current;
    var u := SetTimer(Unready(s, c), c, true);
    Ends(s, u.(threads := u.threads[c := u.threads[c].(suspended := true)]), c, but);
  }

  lemma SuspendKeeps(s: State, t: nat, but: set<nat>)
    requires NoneForgotten(s, but) && t < |s.threads| && s.current < |s.threads|
    ensures NoneForgotten(Suspend(s, t), but)
  {
    hide Removed;
    Ends(s, Suspend(s, t), t, but);
  }

  lemma WakeupKeeps(s: State, t: nat, but: set<nat>)
    requires NoneForgotten(s, but) && t < |s.threads| && s.current < |s.threads|
    ensures NoneForgotten(Wakeup(s, t), but) && (Asleep(s.threads[t]) ==> NoneForgotten(Wakeup(s, t), but - {t}))
  {
    hide MakeReady, NoneForgotten;
    var th := s.threads[t].(timer := false, suspended := false);
    ReadyKeeps(s, t, th, but);
    assert s.threads[t := s.threads[t].(timer := false)][t := th] == s.threads[t := th];
  }

  // ----- Steps and runs -----

  /** The steps that take a thread off a wait queue and leave it to a later step to make it ready. */
  predicate Releases(step: Step) { step.DoUnpend? || step.DoUnpendFirst? }

  lemma ThreadStepKeeps(s: State, step: Step, but: set<nat>)
    requires NoneForgotten(s, but) && Enabled(s, step)
    requires OfThread(step)
    ensures NoneForgotten(Next(s, step), but)
  {
    hide NoneForgotten, MakeReady, Suspend, Wakeup, Expire, Kill, SetPrio;
    match step
    case DoReady(t) =>
      ReadyKeeps(s, t, s.threads[t], but);
      assert s.(threads := s.threads[t := s.threads[t]]) == s;
    case DoStart(t) => ReadyKeeps(s, t, s.threads[t].(prestart := false), but);
    case DoSuspend(t) => SuspendKeeps(s, t, but);
    case DoResume(t) => ReadyKeeps(s, t, s.threads[t].(suspended := false), but);
    case DoWakeup(t) => WakeupKeeps(s, t, but);
    case DoExpire(t) => ExpireKeeps(s, t, but);
    case DoAbort(t) => KillKeeps(s, t, but);
    case DoSetPrio(t, prio) => SetPrioKeeps(s, t, prio, but);
  }

  lemma SwapKeeps(s: State, but: set<nat>)
    requires NoneForgotten(s, but)
    ensures NoneForgotten(Swap(s), but)
  {
  }

  lemma LockKeeps(s: State, but: set<nat>)
    requires NoneForgotten(s, but) && s.current < |s.threads|
    ensures NoneForgotten(LockSched(s), but) && NoneForgotten(UnlockSched(s), but)
  {
  }

  lemma QueueSizes(s: State)
    requires s.current < |s.threads|
    ensures |Dequeue(s, s.current).threads| == |s.threads|
    ensures var u := Queue(Dequeue(s, s.current), s.current); |u.threads| == |s.threads| && u.current == s.current
  {
  }

  lemma YieldKeeps(s: State, but: set<nat>)
    requires NoneForgotten(s, but) && s.current < |s.threads|
    ensures NoneForgotten(Yield(s), but)
  {
    hide Queue, Dequeue;
    RequeueKeeps(s, s.current, true, but);
    QueueSizes(s);
    SwapKeeps(UpdateCache(Queue(Dequeue(s, s.current), s.current), true), but);
  }

  lemma OtherStepKeeps(s: State, step: Step, but: set<nat>)
    requires NoneForgotten(s, but) && Enabled(s, step) && !Releases(step)
    requires !OfThread(step)
    ensures NoneForgotten(Next(s, step), but)
  {
    hide NoneForgotten, Pend, Wake, WakeAll, UpdateCache, Queue, Dequeue, MoveToEnd, Sleep, LockSched, UnlockSched, Swap;
    match step
    case DoPend(q, timed) =>
      PendKeeps(s, s.current, q, timed, but);
      SwapKeeps(Pend(s, s.current, q, timed), but);
    case DoPendDummy(t, q, timed) => PendKeeps(s, t, q, timed, but);
    case DoWake(q) =>
      if s.waitqs[q] != [] && s.waitqs[q][0] < |s.threads| {
        WakeKeeps(s, s.waitqs[q][0], but);
      }
    case DoWakeAll(q) => WakeAllKeeps(s, q, but);
    case DoYield => YieldKeeps(s, but);
    case DoSleep => SleepKeeps(s, but);
    case DoLock => LockKeeps(s, but);
    case DoUnlock => LockKeeps(s, but);
    case DoSlice(max) => RequeueKeeps(s, s.current, true, but);
    case DoJoin(t, _, timed) =>
      PendKeeps(s, s.current, Some(s.threads[t].joinq), timed, but);
      SwapKeeps(Pend(s, s.current, Some(s.threads[t].joinq), timed), but);
    case DoSwap => SwapKeeps(s, but);
  }

  lemma StepKeeps(s: State, step: Step, but: set<nat>)
    requires NoneForgotten(s, but) && !Releases(step)
    ensures NoneForgotten(Next(s, step), but)
  {
    hide NoneForgotten;
    if Enabled(s, step) {
      if OfThread(step) {
        ThreadStepKeeps(s, step, but);
      } else {
        OtherStepKeeps(s, step, but);
      }
    }
  }

  /** The thread that a step ends by making ready. */
  function Readied(s: State, step: Step): Option<nat>
    requires Enabled(s, step)
  {
    match step
    case DoReady(t) => Some(t)
    case DoStart(t) => if s.threads[t].prestart then Some(t) else None
    case DoResume(t) => if s.threads[t].suspended then Some(t) else None
    case DoWakeup(t) => if Asleep(s.threads[t]) then Some(t) else None
    case DoExpire(t) => if s.threads[t].timer then Some(t) else None
    case _ => None
  }

  /** The threads released from a wait queue and not yet made ready. */
  function Released(s: State, step: Step, but: set<nat>): set<nat> {
    if !Enabled(s, step) then but
    else match step
      case DoUnpend(t) => but + {t}
      case DoUnpendFirst(q, _) => if s.waitqs[q] == [] then but else but + {s.waitqs[q][0]}
      case _ => if Readied(s, step).Some? then but - {Readied(s, step).value} else but
  }

  function AllReleased(s: State, steps: seq<Step>, but: set<nat>): set<nat>
    decreases |steps|
  {
    if steps == [] then but else AllReleased(Next(s, steps[0]), steps[1..], Released(s, steps[0], but))
  }

  lemma ReadiedKeeps(s: State, step: Step, but: set<nat>)
    requires NoneForgotten(s, but) && Enabled(s, step) && Readied(s, step).Some?
    ensures NoneForgotten(Next(s, step), but - {Readied(s, step).value})
  {
    hide NoneForgotten, MakeReady, Wakeup, Expire;
    match step
    case DoReady(t) =>
      ReadyKeeps(s, t, s.threads[t], but);
      assert s.(threads := s.threads[t := s.threads[t]]) == s;
    case DoStart(t) => ReadyKeeps(s, t, s.threads[t].(prestart := false), but);
    case DoResume(t) => ReadyKeeps(s, t, s.threads[t].(suspended := false), but);
    case DoWakeup(t) => WakeupKeeps(s, t, but);
    case DoExpire(t) => ExpireKeeps(s, t, but);
    case _ =>
  }

  lemma ReleaseKeeps(s: State, step: Step, but: set<nat>)
    requires NoneForgotten(s, but) && Enabled(s, step) && Releases(step)
    ensures NoneForgotten(Next(s, step), Released(s, step, but))
  {
    hide Unpend;
    match step
    case DoUnpend(t) =>
      UnpendTouches(s, t);
      Touched(s, Next(s, step), t, but);
    case DoUnpendFirst(q, _) =>
      if s.waitqs[q] != [] && s.waitqs[q][0] < |s.threads| {
        UnpendTouches(s, s.waitqs[q][0]);
        Touched(s, Next(s, step), s.waitqs[q][0], but);
      }
  }

  lemma NextKeeps(s: State, step: Step, but: set<nat>)
    requires NoneForgotten(s, but)
    ensures NoneForgotten(Next(s, step), Released(s, step, but))
  {
    hide NoneForgotten;
    if Enabled(s, step) {
      if Releases(step) {
        ReleaseKeeps(s, step, but);
      } else if Readied(s, step).Some? {
        ReadiedKeeps(s, step, but);
      } else {
        StepKeeps(s, step, but);
      }
    }
  }

  lemma {:induction false} RunKeeps(s: State, steps: seq<Step>, but: set<nat>)
    requires NoneForgotten(s, but)
    ensures NoneForgotten(Run(s, steps), AllReleased(s, steps, but))
    decreases |steps|
  {
    hide NoneForgotten, Next, Released;
    if steps != [] {
      NextKeeps(s, steps[0], but);
      RunKeeps(Next(s, steps[0]), steps[1..], Released(s, steps[0], but));
    }
  }

  /**
   Over every run, a thread other than the idle one is in the run queue if and only if nothing keeps it from running, unless it
   has been released from a wait queue and not been made ready yet.
   */
  lemma QueuedIffReady(s0: State, steps: seq<Step>, t: nat)
    requires Boot(s0)
    ensures var s := Run(s0, steps);
      t < |s.threads| && t != s.idle && t !in AllReleased(s0, steps, {}) ==>
        var th := s.threads[t];
        th.queued <==> !th.pending && !th.prestart && !th.dead && !th.dummy && !th.suspended && !th.timer
    ensures var s := Run(s0, steps);
      t < |s.threads| && s.threads[t].queued ==>
        var th := s.threads[t]; !th.pending && !th.prestart && !th.dead && !th.dummy && !th.suspended && !th.timer
  {
    RunKeeps(s0, steps, {});
    BootInv(s0);
    RunInv(s0, steps);
    var s := Run(s0, steps);
    hide Run, AllReleased;
    if t < |s.threads| {
      assert ThreadOk(s.threads[t], |s.waitqs|, s.stamps);
    }
  }

  /** A release forgets only the thread that it releases, and making that one ready puts this right. */
  lemma ReleaseThenReady(s: State, step: Step, t: nat, but: set<nat>)
    requires Inv(s) && NoneForgotten(s, but) && Enabled(s, step) && t != s.idle
    requires match step
             case DoUnpend(x) => x == t
             case DoUnpendFirst(q, _) => s.waitqs[q] != [] && s.waitqs[q][0] == t
             case _ => false
    ensures NoneForgotten(Next(s, step), but + {t}) && NoneForgotten(Next(Next(s, step), DoReady(t)), but - {t})
  {
    var u := Next(s, step);
    if t < |s.threads| {
      UnpendTouches(s, t);
      Touched(s, u, t, but);
      hide MakeReady, Unpend;
      Recovered(u, t, but);
    }
  }
}
