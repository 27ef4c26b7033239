/** What each scheduler operation (kernel/sched.c) does to its thread, to the queues and to the choice of the next thread. */
module SchedAnswers {
  import opened Lists
  import opened SchedModel
  import opened SchedRuns
  import opened SchedReady

  // ----- Vocabulary -----

  /** Nothing keeps the thread from running. */
  predicate CanRun(th: Thread) {
    !th.pending && !th.prestart && !th.dead && !th.dummy && !th.suspended && !th.timer
  }

  /** The thread runs on whoever else is ready: it can, and it is cooperative or has locked the scheduler. */
  predicate RunsOn(th: Thread) {
    !th.pending && !th.prestart && !th.dead && !th.dummy && !th.suspended && (th.prio < 0 || th.locked > 0)
  }

  /** The next thread has been chosen anew: the head of the run queue or the idle thread, unless the current thread runs on. */
  predicate Chosen(s: State, preempt: bool)
    requires s.current < |s.threads|
  {
    s.cache == if !preempt && RunsOn(s.threads[s.current]) then s.current else if s.runq == [] then s.idle else s.runq[0]
  }

  /** The thread is in the run queue behind everyone who is no worse and before everyone who is. */
  ghost predicate StandsAt(s: State, t: nat, i: nat) {
    && i < |s.runq| && s.runq[i] == t
    && (forall j :: 0 <= j < i ==> Prio(s.threads, s.runq[j]) <= Prio(s.threads, t))
    && (forall j :: i < j < |s.runq| ==> Prio(s.threads, s.runq[j]) > Prio(s.threads, t))
  }

  ghost predicate Stands(s: State, t: nat) { exists i: nat :: StandsAt(s, t, i) }

  /** In `u` thread `t` has become `th`; if it can run it is in the run queue now, last of its equals, and the choice is made anew. */
  ghost predicate Becomes(s: State, u: State, t: nat, th: Thread) {
    && Touches(s, u, t) && u.waitqs == s.waitqs && t < |s.threads| && s.current < |s.threads|
    && if CanRun(th) && !th.queued then u.threads[t] == th.(queued := true, stamp := s.stamps) && Stands(u, t) && Chosen(u, false)
       else u.threads[t] == th && u.runq == s.runq && u.cache == s.cache
  }

  // ----- The run queue -----

  lemma NotInRunq(s: State, t: nat)
    requires Core(s) && t < |s.threads| && !s.threads[t].queued
    ensures t !in s.runq
  {
    assert InRunq(t, s.threads[t], s.runq);
    hide Core, Count;
    CountIn(s.runq, t);
  }

  /** A thread that is queued stands last of its equals. */
  lemma QueueStands(s: State, t: nat)
    requires RunSorted(s.threads, s.runq) && t < |s.threads| && t !in s.runq
    ensures Stands(Queue(s, t), t)
  {
    hide Rank, InsertAt;
    var u, p := Queue(s, t), Rank(Prios(s.threads, s.runq), s.threads[t].prio);
    forall i | 0 <= i < |s.runq| ensures s.runq[i] != t && Prio(u.threads, s.runq[i]) == Prio(s.threads, s.runq[i]) {
      assert s.runq[i] in s.runq;
    }
    forall j | p < j < |u.runq| ensures Prio(u.threads, u.runq[j]) > Prio(u.threads, t) {
      assert u.runq[j] == s.runq[j - 1];
      assert j - 1 > p ==> Ahead(s.threads[s.runq[p]], s.threads[s.runq[j - 1]]);
    }
    forall j | 0 <= j < p ensures Prio(u.threads, u.runq[j]) <= Prio(u.threads, t) {
      assert u.runq[j] == s.runq[j];
      assert Prios(s.threads, s.runq)[j] <= s.threads[t].prio;
    }
    assert StandsAt(u, t, p);
  }

  lemma SortedWithout(s: State, t: nat, th: Thread)
    requires RunSorted(s.threads, s.runq) && t < |s.threads| && t !in s.runq
    ensures RunSorted(s.threads[t := th], s.runq)
  {
    var b := s.threads[t := th];
    forall i | 0 <= i < |s.runq| ensures s.runq[i] != t {
      assert s.runq[i] in s.runq;
    }
    forall i, j | 0 <= i < j < |s.runq| ensures Ahead(b[s.runq[i]], b[s.runq[j]]) {
      assert Ahead(s.threads[s.runq[i]], s.threads[s.runq[j]]);
    }
  }

  lemma StandsSame(s: State, u: State, t: nat)
    requires Stands(s, t) && u.runq == s.runq && u.threads == s.threads
    ensures Stands(u, t)
  {
    var i: nat :| StandsAt(s, t, i);
    assert StandsAt(u, t, i);
  }

  /** Making a thread ready that has become `th`. */
  lemma MadeReady(s: State, t: nat, th: Thread)
    requires Core(s) && t < |s.threads| && s.current < |s.threads| && th.queued == s.threads[t].queued
    ensures Becomes(s, MakeReady(s.(threads := s.threads[t := th]), t), t, th)
  {
    var v := s.(threads := s.threads[t := th]);
    if CanRun(th) && !th.queued {
      NotInRunq(s, t);
      SortedWithout(s, t, th);
      hide Core;
      QueueStands(v, t);
      var q := Queue(v, t);
      StandsSame(q, MakeReady(v, t), t);
      hide RunSorted, Stands, Rank, InsertAt;
    } else {
      hide Core;
    }
  }

  // ----- Threads -----

  /** Only a thread that has not been started is started. */
  lemma StartAnswer(s: State, t: nat)
    requires Inv(s) && t < |s.threads|
    ensures if s.threads[t].prestart then Becomes(s, Start(s, t), t, s.threads[t].(prestart := false)) else Start(s, t) == s
  {
    hide Core, MakeReady, Becomes;
    MadeReady(s, t, s.threads[t].(prestart := false));
  }

  /** Only a suspended thread is resumed. */
  lemma ResumeAnswer(s: State, t: nat)
    requires Inv(s) && t < |s.threads|
    ensures if s.threads[t].suspended then Becomes(s, Resume(s, t), t, s.threads[t].(suspended := false)) else Resume(s, t) == s
  {
    hide Core, MakeReady, Becomes;
    MadeReady(s, t, s.threads[t].(suspended := false));
  }

  /** Only a sleeper is woken: a thread that is not pending and has a timeout, or that is suspended and nothing else. */
  lemma WakeupAnswer(s: State, t: nat)
    requires Inv(s) && t < |s.threads|
    ensures var th := s.threads[t];
      if !th.pending && (th.timer || (th.suspended && !th.prestart && !th.dead && !th.dummy && !th.queued))
      then Becomes(s, Wakeup(s, t), t, th.(timer := false, suspended := false)) else Wakeup(s, t) == s
  {
    hide Core, MakeReady, Becomes;
    var th := s.threads[t].(timer := false, suspended := false);
    MadeReady(s, t, th);
    assert s.threads[t := s.threads[t].(timer := false)][t := th] == s.threads[t := th];
  }

  lemma ReadyAnswer(s: State, t: nat)
    requires Inv(s) && t < |s.threads|
    ensures Becomes(s, MakeReady(s, t), t, s.threads[t])
  {
    hide Core, MakeReady, Becomes;
    MadeReady(s, t, s.threads[t]);
    assert s.(threads := s.threads[t := s.threads[t]]) == s;
  }

  lemma OffIs(s: State, t: nat)
    requires Core(s) && t < |s.threads|
    ensures var u := Off(s, t);
      u == s.(threads := s.threads[t := s.threads[t].(queued := false)], runq := Removed(s.runq, t))
  {
    if !s.threads[t].queued {
      NotInRunq(s, t);
      hide Core;
      CountIn(s.runq, t);
      assert s.threads[t := s.threads[t].(queued := false)] == s.threads;
    }
  }

  lemma TimerOffCore(s: State, t: nat)
    requires Core(s) && t < |s.threads|
    ensures Core(SetTimer(s, t, false))
  {
    assert ThreadOk(s.threads[t], |s.waitqs|, s.stamps);
    FlagsCore(s, t, s.threads[t].(timer := false));
  }

  /** A suspended thread is out of the run queue and its timeout is stopped, whatever it was doing. */
  lemma SuspendAnswer(s: State, t: nat)
    requires Inv(s) && t < |s.threads| && t != s.idle
    ensures var u := Suspend(s, t);
      && Touches(s, u, t) && u.waitqs == s.waitqs && u.runq == Removed(s.runq, t) && Chosen(u, t == s.current)
      && u.threads[t] == s.threads[t].(queued := false, timer := false, suspended := true)
  {
    TimerOffCore(s, t);
    OffIs(SetTimer(s, t, false), t);
    hide Core, Off, Removed;
  }

  /** Whoever is strictly the best is first. */
  lemma StandsFirst(u: State, t: nat)
    requires Core(u) && Stands(u, t) && t < |u.threads|
    requires forall x: nat :: x < |u.threads| && x != t && u.threads[x].queued ==> u.threads[t].prio < u.threads[x].prio
    ensures u.runq[0] == t
  {
  }

  lemma RequeuedWith(s: State, t: nat, prio: int)
    requires Core(s) && t < |s.threads| && s.threads[t].queued
    ensures var d := Dequeue(s, t);
      var u := Queue(d.(threads := d.threads[t := d.threads[t].(prio := prio)]), t);
      && Touches(s, u, t) && u.waitqs == s.waitqs && u.threads[t] == s.threads[t].(prio := prio, stamp := s.stamps)
      && Stands(u, t) && u.runq != []
  {
    hide Removed, Rank, InsertAt;
    var d := Dequeue(s, t);
    DequeueCore(s, t);
    NotInRunq(d, t);
    var th := d.threads[t].(prio := prio);
    SortedWithout(d, t, th);
    hide Core;
    QueueStands(d.(threads := d.threads[t := th]), t);
    hide Stands;
  }

  /**
   A thread has the new priority and the others keep theirs.  A queued thread moves behind all that are no worse now, and the
   best thread is next; a thread that is not ready stays where it is.
   */
  lemma SetPrioAnswer(s: State, t: nat, prio: int)
    requires Inv(s) && t < |s.threads| && t != s.idle && (CanRun(s.threads[t]) ==> s.threads[t].queued)
    ensures var u := SetPrio(s, t, prio);
      && Touches(s, u, t) && u.waitqs == s.waitqs
      && if CanRun(s.threads[t]) then
           && u.threads[t] == s.threads[t].(prio := prio, stamp := s.stamps)
           && Stands(u, t) && u.runq != [] && u.cache == u.runq[0]
           && ((forall x: nat :: x < |s.threads| && x != t && s.threads[x].queued ==> prio < s.threads[x].prio) ==> u.cache == t)
         else u.threads[t] == s.threads[t].(prio := prio) && u.runq == s.runq && u.cache == s.cache
  {
    hide Core, RunSorted, Stands;
    if CanRun(s.threads[t]) {
      RequeuedWith(s, t, prio);
      SetPrioInv(s, t, prio);
      var d, u := Dequeue(s, t), SetPrio(s, t, prio);
      var v := Queue(d.(threads := d.threads[t := d.threads[t].(prio := prio)]), t);
      assert u == UpdateCache(v, true);
      hide Queue, Dequeue;
      StandsSame(v, u, t);
      if forall x: nat :: x < |s.threads| && x != t && s.threads[x].queued ==> prio < s.threads[x].prio {
        StandsFirst(u, t);
      }
    }
  }

  // ----- Waiting -----

  lemma UnreadyIs(s: State, t: nat)
    requires Core(s) && t < |s.threads| && s.current < |s.threads|
    ensures var u := Unready(s, t);
      && u == s.(threads := s.threads[t := s.threads[t].(queued := false)], runq := Removed(s.runq, t), cache := u.cache)
      && Chosen(u, t == s.current)
  {
    hide Core, Removed;
    OffIs(s, t);
    hide Off;
  }

  /**
   A thread that pends is out of the run queue and on the wait queue, behind those that are no worse; its timeout runs if it has
   one; and if it was the current thread the best other one is next.
   */
  lemma PendAnswer(s: State, t: nat, q: Option<nat>, timed: bool)
    requires Inv(s) && t < |s.threads| && (q.Some? ==> q.value < |s.waitqs|)
    ensures var u, th := Pend(s, t, q, timed), s.threads[t];
      && Touches(s, u, t) && u.runq == Removed(s.runq, t)
      && u.threads[t] == th.(queued := false, pending := true, pendedOn := if q.Some? then q else th.pendedOn, timer := th.timer || timed)
      && Chosen(u, t == s.current)
      && if q.None? then u.waitqs == s.waitqs
         else exists i: nat :: InPlace(Prios(s.threads, s.waitqs[q.value]), i, th.prio)
                && u.waitqs == s.waitqs[q.value := InsertAt(s.waitqs[q.value], i, t)]
  {
    hide Core, Removed, Rank, InsertAt;
    UnreadyIs(s, t);
    var r := Unready(s, t);
    hide Unready;
    if q.Some? {
      var list := s.waitqs[q.value];
      assert Prios(r.threads, list) == Prios(s.threads, list);
      var i := Rank(Prios(s.threads, list), s.threads[t].prio);
      assert InPlace(Prios(s.threads, list), i, s.threads[t].prio);
    }
  }

  /** Sleeping: out of the run queue until the timeout, and the best other thread runs. */
  lemma SleepAnswer(s: State)
    requires Inv(s) && Acting(s)
    ensures var u, c := Sleep(s), s.current;
      && u.idle == s.idle && u.waitqs == s.waitqs && u.runq == Removed(s.runq, c)
      && u.threads == s.threads[c := s.threads[c].(queued := false, timer := true, suspended := true)]
      && u.current == (if u.runq == [] then u.idle else u.runq[0])
  {
    hide Core, Removed;
    UnreadyIs(s, s.current);
    hide Unready;
  }

  lemma RemovedHead(list: seq<nat>)
    requires list != []
    ensures Removed(list, list[0]) == list[1..]
  {
  }

  /** A thread that leaves its wait queue: it waits no longer, and only the list it was on has changed. */
  lemma UnpendAnswer(s: State, t: nat)
    requires Core(s) && t < |s.threads|
    ensures var u, th := Unpend(s, t), s.threads[t];
      if th.pendedOn.None? then u == s
      else
        && th.pendedOn.value < |s.waitqs|
        && u == s.(threads := s.threads[t := th.(pending := false, pendedOn := None)],
                   waitqs := s.waitqs[th.pendedOn.value := Removed(s.waitqs[th.pendedOn.value], t)])
  {
    assert ThreadOk(s.threads[t], |s.waitqs|, s.stamps);
    hide Core, Removed;
  }

  lemma ReadyKeepsWaitqs(s: State, t: nat)
    requires t < |s.threads| && s.current < |s.threads|
    ensures MakeReady(s, t).waitqs == s.waitqs
  {
  }

  /** What a thread was before does not matter. */
  lemma BecomesFrom(v: State, s: State, u: State, t: nat, th: Thread)
    requires Becomes(v, u, t, th) && Touches(v, s, t) && s.waitqs == v.waitqs && s.runq == v.runq && s.cache == v.cache && s.stamps == v.stamps
    ensures Becomes(s, u, t, th)
  {
    hide Stands;
  }

  /** What waking the first waiter of a queue does. */
  lemma WokenAnswer(s: State, q: nat)
    requires Core(s) && s.current < |s.threads| && q < |s.waitqs| && s.waitqs[q] != []
    ensures var list := s.waitqs[q];
      && list[0] < |s.threads|
      && var u := Wake(s, list[0]);
         && u.waitqs == s.waitqs[q := list[1..]]
         && Becomes(s.(waitqs := u.waitqs), u, list[0], s.threads[list[0]].(pending := false, pendedOn := None, timer := false))
  {
    var list := s.waitqs[q];
    OnWaitq(s, q);
    var t := list[0];
    UnpendAnswer(s, t);
    RemovedHead(list);
    UnpendCore(s, t);
    var v := Unpend(s, t);
    hide Core, Unpend, Removed, Becomes, MakeReady;
    MadeReady(v, t, v.threads[t].(timer := false));
    ReadyKeepsWaitqs(SetTimer(v, t, false), t);
    BecomesFrom(v, s.(waitqs := v.waitqs), Wake(s, t), t, v.threads[t].(timer := false));
  }

  /** The first waiter is released and made ready, and the others wait on; without one nothing happens. */
  lemma WakeAnswer(s: State, q: nat)
    requires Inv(s) && q < |s.waitqs|
    ensures var u, list := Next(s, DoWake(q)), s.waitqs[q];
      if list == [] then u == s
      else
        && list[0] < |s.threads| && u.waitqs == s.waitqs[q := list[1..]]
        && Becomes(s.(waitqs := u.waitqs), u, list[0], s.threads[list[0]].(pending := false, pendedOn := None, timer := false))
  {
    hide Core, Wake, Becomes;
    if s.waitqs[q] != [] {
      WokenAnswer(s, q);
    }
  }

  /** A waiter has been released: it waits no longer, has no timeout, and is in the run queue if nothing else keeps it. */
  ghost predicate Freed(a: Thread, b: Thread) {
    && b == a.(pending := false, pendedOn := None, timer := false, queued := b.queued, stamp := b.stamp)
    && (b.queued <==> CanRun(a.(pending := false, timer := false)))
  }

  lemma HeadOnce(s: State, q: nat)
    requires Core(s) && q < |s.waitqs| && s.waitqs[q] != []
    ensures s.waitqs[q][0] < |s.threads| && s.waitqs[q][0] !in s.waitqs[q][1..]
    ensures s.threads[s.waitqs[q][0]].pending && !s.threads[s.waitqs[q][0]].queued
  {
    OnWaitq(s, q);
    var list := s.waitqs[q];
    var t := list[0];
    assert InWaitq(t, s.threads[t], q, list) && ThreadOk(s.threads[t], |s.waitqs|, s.stamps);
    hide Core;
    assert Count(list, t) == 1 + Count(list[1..], t);
    hide Count;
    CountIn(list[1..], t);
  }

  /** All who wait on a queue are released, and nobody else is touched. */
  ghost predicate AllFreed(s: State, u: State, q: nat) {
    && q < |s.waitqs| && |u.threads| == |s.threads| && u.waitqs == s.waitqs[q := []]
    && forall x: nat :: x < |s.threads| ==>
         if x in s.waitqs[q] then Freed(s.threads[x], u.threads[x]) else u.threads[x] == s.threads[x]
  }

  lemma FreedFirst(s: State, v: State, u: State, q: nat, t: nat, rest: seq<nat>)
    requires q < |s.waitqs| && s.waitqs[q] == [t] + rest && t !in rest && t < |s.threads|
    requires |v.threads| == |s.threads| && v.waitqs == s.waitqs[q := rest] && AllFreed(v, u, q)
    requires Freed(s.threads[t], v.threads[t]) && forall x: nat :: x < |s.threads| && x != t ==> v.threads[x] == s.threads[x]
    ensures AllFreed(s, u, q)
  {
    hide Freed;
  }

  lemma WokenFreed(s: State, q: nat)
    requires Core(s) && s.current < |s.threads| && q < |s.waitqs| && s.waitqs[q] != []
    ensures var list := s.waitqs[q];
      && list[0] < |s.threads| && s.threads[list[0]].pendedOn.Some? && list[0] !in list[1..]
      && var v := Wake(s, list[0]);
         && |v.threads| == |s.threads| && v.waitqs == s.waitqs[q := list[1..]] && Freed(s.threads[list[0]], v.threads[list[0]])
         && forall x: nat :: x < |s.threads| && x != list[0] ==> v.threads[x] == s.threads[x]
  {
    OnWaitq(s, q);
    hide Core, Wake, Stands, Chosen;
    HeadOnce(s, q);
    WokenAnswer(s, q);
  }

  lemma {:induction false} WakeAllAnswer(s: State, q: nat)
    requires Core(s) && CurrentOk(s) && q < |s.waitqs|
    ensures AllFreed(s, WakeAll(s, q), q)
    decreases |s.waitqs[q]|
  {
    hide Core, Wake, Freed;
    var list := s.waitqs[q];
    if list == [] {
      assert s.waitqs[q := []] == s.waitqs;
    } else {
      WokenFreed(s, q);
      WakeHalf(s, list[0]);
      hide CurrentOk;
      var v := Wake(s, list[0]);
      WakeAllAnswer(v, q);
      assert list == [list[0]] + list[1..];
      FreedFirst(s, v, WakeAll(s, q), q, list[0], list[1..]);
    }
  }

  // ----- The current thread -----

  /** The yielding thread goes behind its equals, and the first in the run queue runs. */
  lemma YieldAnswer(s: State)
    requires Inv(s) && Acting(s)
    ensures var u, c := Yield(s), s.current;
      && u.idle == s.idle && u.waitqs == s.waitqs && u.threads == s.threads[c := s.threads[c].(stamp := s.stamps)]
      && Stands(u, c) && u.runq != [] && u.current == u.cache == u.runq[0]
  {
    hide Core, Stands;
    var c := s.current;
    RequeuedWith(s, c, s.threads[c].prio);
    var d := Dequeue(s, c);
    assert d.threads[c].(prio := s.threads[c].prio) == d.threads[c] && d.(threads := d.threads[c := d.threads[c]]) == d;
    var v := Queue(d, c);
    hide Queue, Dequeue;
    StandsSame(v, Yield(s), c);
  }

  /** A used-up slice moves a preemptible thread that has time slices behind its equals; it does nothing to any other. */
  lemma SliceAnswer(s: State, max: int)
    requires Inv(s)
    ensures var u, c := Slice(s, max), s.current;
      && c < |s.threads|
      && var th := s.threads[c];
         if th.prio >= 0 && th.locked == 0 && th.prio >= max && c != s.idle
            && !th.pending && !th.prestart && !th.dead && !th.dummy && !th.suspended
         then Touches(s, u, c) && u.waitqs == s.waitqs && Stands(u, c) && u.runq != [] && u.cache == u.runq[0]
         else u == s
  {
    if Sliceable(s, max) {
      var c := s.current;
      assert ThreadOk(s.threads[c], |s.waitqs|, s.stamps);
      assert s.threads[c].queued;
      hide Core, Stands;
      RequeuedWith(s, c, s.threads[c].prio);
      var d := Dequeue(s, c);
      assert d.threads[c].(prio := s.threads[c].prio) == d.threads[c] && d.(threads := d.threads[c := d.threads[c]]) == d;
      var v := Queue(d, c);
      hide Queue, Dequeue;
      StandsSame(v, Slice(s, max), c);
    }
  }

  /** Locking the scheduler counts up; unlocking counts down, never below 0, and chooses anew. */
  lemma LockAnswer(s: State)
    requires Inv(s)
    ensures var c := s.current;
      && c < |s.threads|
      && LockSched(s) == s.(threads := s.threads[c := s.threads[c].(locked := s.threads[c].locked + 1)])
      && var u := UnlockSched(s);
         if s.threads[c].locked == 0 then u == s
         else
           && u == s.(threads := s.threads[c := s.threads[c].(locked := s.threads[c].locked - 1)], cache := u.cache)
           && Chosen(u, false)
  {
    hide Core;
  }

  /**
   Joining: at once for a dead thread; else -EBUSY for who may not wait, -EDEADLK for itself or for a thread that waits for the
   caller to end; else the caller pends on the join queue of the thread.
   */
  lemma JoinAnswer(s: State, t: nat, noWait: bool, timed: bool)
    requires Inv(s) && Acting(s) && t < |s.threads|
    ensures var code, c := JoinCode(s, t, noWait), s.current;
      && s.threads[t].joinq < |s.waitqs| && s.threads[c].joinq < |s.waitqs|
      && (code == Some(0) <==> s.threads[t].dead)
      && (code == Some(-EBUSY) <==> !s.threads[t].dead && noWait)
      && (code == Some(-EDEADLK) <==> !s.threads[t].dead && !noWait && (t == c || t in s.waitqs[s.threads[c].joinq]))
      && JoinThread(s, t, noWait, timed) ==
           (if !s.threads[t].dead && !noWait && t != c && t !in s.waitqs[s.threads[c].joinq]
            then Swap(Pend(s, c, Some(s.threads[t].joinq), timed)) else s)
  {
    var c := s.current;
    assert ThreadOk(s.threads[t], |s.waitqs|, s.stamps) && ThreadOk(s.threads[c], |s.waitqs|, s.stamps);
    assert InWaitq(t, s.threads[t], s.threads[c].joinq, s.waitqs[s.threads[c].joinq]);
    hide Core, Count, Pend;
    CountIn(s.waitqs[s.threads[c].joinq], t);
  }

  // ----- The end of a thread -----

  lemma RemovedKeeps(list: seq<nat>, t: nat, x: nat)
    requires x != t
    ensures x in Removed(list, t) <==> x in list
  {
    CountIn(list, t);
    CountRemoved(list, t, x);
    CountIn(list, x);
    CountIn(Removed(list, t), x);
  }

  lemma NotWaiting(s: State, t: nat, q: nat)
    requires Core(s) && t < |s.threads| && q < |s.waitqs| && s.threads[t].pendedOn.None?
    ensures t !in s.waitqs[q]
  {
    assert InWaitq(t, s.threads[t], q, s.waitqs[q]);
    hide Core, Count;
    CountIn(s.waitqs[q], t);
  }

  /** A dying thread has left its queues. */
  lemma DyingIs(s: State, t: nat)
    requires Inv(s) && t < |s.threads| && t != s.idle && !s.threads[t].dead
    ensures var v := SetTimer(Unpend(Off(s.(threads := s.threads[t := s.threads[t].(dead := true)]), t), t), t, false);
      && Core(v) && CurrentOk(v) && Touches(s, v, t) && v.runq == Removed(s.runq, t)
      && v.threads[t] == s.threads[t].(dead := true, queued := false, timer := false, pendedOn := None,
                                       pending := s.threads[t].pending && s.threads[t].pendedOn.None?)
      && forall q: nat, x: nat :: q < |s.waitqs| && x != t ==> (x in v.waitqs[q] <==> x in s.waitqs[q])
  {
    DyingHalf(s, t);
    OffCore(s, t);
    OffIs(s, t);
    UnpendAnswer(Off(s, t), t);
    DyingSame(s, t);
    var p := Unpend(Off(s, t), t);
    hide Core, Off, Unpend, CurrentOk, CacheOk;
    forall q: nat, x: nat | q < |s.waitqs| && x != t ensures x in p.waitqs[q] <==> x in s.waitqs[q] {
      RemovedKeeps(s.waitqs[q], t, x);
      hide Removed;
    }
    hide Removed;
  }

  /**
   A thread that ends is dead, in no queue and without a timeout; everyone who waited for its end is released; nobody else is
   touched; and the best thread is next.
   */
  lemma KillAnswer(s: State, t: nat)
    requires Inv(s) && t < |s.threads| && t != s.idle
    ensures s.threads[t].joinq < |s.waitqs|
    ensures var u, list := Kill(s, t), s.waitqs[s.threads[t].joinq];
      if s.threads[t].dead then u == s
      else
        && |u.threads| == |s.threads| && |u.waitqs| == |s.waitqs| && u.current == s.current && u.idle == s.idle && Chosen(u, true)
        && u.threads[t] == s.threads[t].(dead := true, queued := false, timer := false, pendedOn := None,
                                         pending := s.threads[t].pending && s.threads[t].pendedOn.None?)
        && (forall x: nat :: x < |s.threads| && x != t ==>
              if x in list then Freed(s.threads[x], u.threads[x]) else u.threads[x] == s.threads[x])
        && u.waitqs[s.threads[t].joinq] == [] && t !in u.runq
  {
    assert ThreadOk(s.threads[t], |s.waitqs|, s.stamps);
    if !s.threads[t].dead {
      DyingIs(s, t);
      KillInv(s, t);
      var v := SetTimer(Unpend(Off(s.(threads := s.threads[t := s.threads[t].(dead := true)]), t), t), t, false);
      var q := s.threads[t].joinq;
      assert Kill(s, t) == UpdateCache(WakeAll(v, q), true);
      hide Kill, Off, Unpend, CurrentOk, CacheOk, SetTimer;
      NotWaiting(v, t, q);
      WakeAllAnswer(v, q);
      hide Freed;
      NotInRunq(Kill(s, t), t);
      hide Core, WakeAll;
    }
  }

  // ----- Suspended -----

  /** The thread is suspended, without a timeout, and out of the run queue. */
  ghost predicate Laid(s: State, t: nat) {
    && t < |s.threads| && t != s.idle
    && var th := s.threads[t]; th.suspended && !th.timer && !th.queued && !th.dummy
  }

  lemma ExpireTouches(s: State, t: nat)
    requires Inv(s) && t < |s.threads|
    ensures Touches(s, Expire(s, t), t)
  {
    hide Core, Rank, InsertAt, Removed;
  }

  lemma NoTimer(s: State, t: nat)
    requires t < |s.threads| && s.current < |s.threads| && !s.threads[t].timer
    ensures Expire(s, t) == s
  {
  }

  lemma BecomesLaid(s: State, u: State, x: nat, th: Thread, t: nat)
    requires Laid(s, t) && Becomes(s, u, x, th) && (x == t ==> th.suspended && !th.timer && !th.queued && !th.dummy)
    ensures Laid(u, t)
  {
    hide Stands, Chosen;
  }

  lemma ReadyStepLaid(s: State, step: Step, t: nat)
    requires Inv(s) && Laid(s, t) && Enabled(s, step) && step != DoResume(t) && step != DoWakeup(t)
    requires step.DoReady? || step.DoStart? || step.DoResume? || step.DoWakeup?
    ensures Laid(Next(s, step), t)
  {
    hide Core, CacheOk, MakeReady, Start, Resume, Wakeup, Becomes;
    var x, u := step.t, Next(s, step);
    var th := s.threads[x];
    match step
    case DoReady(_) =>
      ReadyAnswer(s, x);
      BecomesLaid(s, u, x, th, t);
    case DoStart(_) =>
      StartAnswer(s, x);
      if th.prestart {
        BecomesLaid(s, u, x, th.(prestart := false), t);
      }
    case DoResume(_) =>
      ResumeAnswer(s, x);
      if th.suspended {
        BecomesLaid(s, u, x, th.(suspended := false), t);
      }
    case DoWakeup(_) =>
      WakeupAnswer(s, x);
      if u != s {
        BecomesLaid(s, u, x, th.(timer := false, suspended := false), t);
      }
  }

  lemma ThreadStepLaid(s: State, step: Step, t: nat)
    requires Inv(s) && Laid(s, t) && Enabled(s, step) && OfThread(step) && step != DoResume(t) && step != DoWakeup(t)
    ensures Laid(Next(s, step), t)
  {
    hide Core, CacheOk, MakeReady, Start, Suspend, Resume, Wakeup, Expire, Kill, SetPrio, Stands, Chosen, Removed;
    var x := step.t;
    match step
    case DoSuspend(_) => SuspendAnswer(s, x);
    case DoExpire(_) =>
      ExpireTouches(s, x);
      if x == t {
        NoTimer(s, t);
      }
    case DoAbort(_) => KillAnswer(s, x);
    case DoSetPrio(_, prio) => SetPrioAnswer(s, x, prio);
    case _ => ReadyStepLaid(s, step, t);
  }

  lemma UnpendLaid(s: State, x: nat, stop: bool, t: nat)
    requires Inv(s) && Laid(s, t) && x < |s.threads|
    ensures Laid(if stop then SetTimer(Unpend(s, x), x, false) else Unpend(s, x), t)
  {
    hide Core, Removed;
  }

  lemma WaitStepLaid(s: State, step: Step, t: nat)
    requires Inv(s) && Laid(s, t) && Enabled(s, step)
    requires step.DoUnpend? || step.DoUnpendFirst? || step.DoWake? || step.DoWakeAll?
    ensures Laid(Next(s, step), t)
  {
    hide Core, CacheOk, Wake, WakeAll, Unpend, Stands, Chosen;
    match step
    case DoUnpend(x) => UnpendLaid(s, x, true, t);
    case DoUnpendFirst(q, stop) =>
      if s.waitqs[q] != [] && s.waitqs[q][0] < |s.threads| {
        UnpendLaid(s, s.waitqs[q][0], stop, t);
      }
    case DoWake(q) => WakeAnswer(s, q);
    case DoWakeAll(q) =>
      WakeAllAnswer(s, q);
  }

  lemma CurrentStepLaid(s: State, step: Step, t: nat)
    requires Inv(s) && Laid(s, t) && Enabled(s, step) && !OfThread(step)
    requires !(step.DoUnpend? || step.DoUnpendFirst? || step.DoWake? || step.DoWakeAll?)
    ensures Laid(Next(s, step), t)
  {
    hide Core, CurrentOk, CacheOk, Pend, Yield, Sleep, Slice, Stands, Chosen, Removed, InPlace;
    match step
    case DoPend(q, timed) => PendAnswer(s, s.current, q, timed);
    case DoPendDummy(x, q, timed) => PendAnswer(s, x, q, timed);
    case DoYield => YieldAnswer(s);
    case DoSleep => SleepAnswer(s);
    case DoLock =>
    case DoUnlock =>
    case DoSlice(max) => SliceAnswer(s, max);
    case DoJoin(x, noWait, timed) => PendAnswer(s, s.current, Some(s.threads[x].joinq), timed);
    case DoSwap =>
  }

  lemma NextLaid(s: State, step: Step, t: nat)
    requires Inv(s) && Laid(s, t) && step != DoResume(t) && step != DoWakeup(t)
    ensures Laid(Next(s, step), t)
  {
    hide Inv, Laid;
    if Enabled(s, step) {
      if OfThread(step) {
        ThreadStepLaid(s, step, t);
      } else if step.DoUnpend? || step.DoUnpendFirst? || step.DoWake? || step.DoWakeAll? {
        WaitStepLaid(s, step, t);
      } else {
        CurrentStepLaid(s, step, t);
      }
    }
  }

  lemma {:induction false} LaidRun(s: State, steps: seq<Step>, t: nat)
    requires Inv(s) && Laid(s, t) && forall i :: 0 <= i < |steps| ==> steps[i] != DoResume(t) && steps[i] != DoWakeup(t)
    ensures Laid(Run(s, steps), t)
    decreases |steps|
  {
    hide Inv, Laid, Next;
    if steps != [] {
      NextLaid(s, steps[0], t);
      NextInv(s, steps[0]);
      LaidRun(Next(s, steps[0]), steps[1..], t);
    }
  }

  /** A thread that is suspended stays out of the run queue, over every run in which nobody resumes it or wakes it up. */
  lemma SuspendedRun(s: State, steps: seq<Step>, t: nat)
    requires Inv(s) && t < |s.threads| && t != s.idle && !s.threads[t].dummy
    requires forall i :: 0 <= i < |steps| ==> steps[i] != DoResume(t) && steps[i] != DoWakeup(t)
    ensures var u := Run(Suspend(s, t), steps); t < |u.threads| && u.threads[t].suspended && !u.threads[t].timer && t !in u.runq
  {
    SuspendAnswer(s, t);
    SuspendInv(s, t);
    var v := Suspend(s, t);
    assert Laid(v, t);
    hide Suspend, Core, CurrentOk, CacheOk, Chosen;
    LaidRun(v, steps, t);
    RunInv(v, steps);
    NotInRunq(Run(v, steps), t);
  }

  // ----- Timeouts -----

  lemma UnpendWaitqs(s: State, t: nat)
    requires Core(s) && t < |s.threads|
    ensures var u, th := Unpend(s, t), s.threads[t];
      && Touches(s, u, t) && u.threads[t] == th.(pendedOn := None, pending := th.pending && th.pendedOn.None?)
      && u.runq == s.runq && u.cache == s.cache && u.stamps == s.stamps
      && forall q: nat :: q < |s.waitqs| ==> u.waitqs[q] == if th.pendedOn == Some(q) then Removed(s.waitqs[q], t) else s.waitqs[q]
  {
    hide Core, Removed;
    UnpendAnswer(s, t);
    hide Unpend;
  }

  lemma ExpireIs(s: State, t: nat)
    requires t < |s.threads| && s.current < |s.threads| && s.threads[t].timer && !s.threads[t].dead
    ensures var v := Unpend(SetTimer(s, t, false), t);
      && |v.threads| == |s.threads| && v.current == s.current
      && Expire(s, t) == MakeReady(v.(threads := v.threads[t := v.threads[t].(prestart := false, suspended := false)]), t)
  {
    hide Removed, MakeReady;
  }

  lemma ExpireLive(s: State, t: nat)
    requires Inv(s) && t < |s.threads| && s.threads[t].timer && !s.threads[t].dead
    ensures var u, th := Expire(s, t), s.threads[t];
      && |u.waitqs| == |s.waitqs|
      && (forall q: nat :: q < |s.waitqs| ==> u.waitqs[q] == if th.pendedOn == Some(q) then Removed(s.waitqs[q], t) else s.waitqs[q])
      && Becomes(s.(waitqs := u.waitqs), u, t, th.(timer := false, prestart := false, suspended := false, pendedOn := None,
                                                   pending := th.pending && th.pendedOn.None?))
  {
    hide Core, CacheOk, Unpend, Removed, Becomes, MakeReady, Expire;
    ExpireIs(s, t);
    TimerOffCore(s, t);
    var a := SetTimer(s, t, false);
    UnpendWaitqs(a, t);
    UnpendCore(a, t);
    var v := Unpend(a, t);
    var after := v.threads[t].(prestart := false, suspended := false);
    MadeReady(v, t, after);
    ReadyKeepsWaitqs(v.(threads := v.threads[t := after]), t);
    BecomesFrom(v, s.(waitqs := v.waitqs), Expire(s, t), t, after);
  }

  /**
   The timeout of a thread that is not dead takes it off its wait queue, ends a sleep and a delayed start, and makes it ready.
   */
  lemma ExpireAnswer(s: State, t: nat)
    requires Inv(s) && t < |s.threads|
    ensures var u, th := Expire(s, t), s.threads[t];
      if !th.timer then u == s
      else if th.dead then u == s.(threads := s.threads[t := th.(timer := false)])
      else
        && |u.waitqs| == |s.waitqs|
        && (forall q: nat :: q < |s.waitqs| ==> u.waitqs[q] == if th.pendedOn == Some(q) then Removed(s.waitqs[q], t) else s.waitqs[q])
        && Becomes(s.(waitqs := u.waitqs), u, t, th.(timer := false, prestart := false, suspended := false, pendedOn := None,
                                                     pending := th.pending && th.pendedOn.None?))
  {
    if s.threads[t].timer && !s.threads[t].dead {
      hide Inv, Expire, Becomes, Removed;
      ExpireLive(s, t);
    }
  }

  lemma PendedHere(s: State, t: nat, q: nat)
    requires Core(s) && t < |s.threads| && q < |s.waitqs| && t in s.waitqs[q]
    ensures s.threads[t].pendedOn == Some(q)
  {
    assert InWaitq(t, s.threads[t], q, s.waitqs[q]);
    hide Core, Count;
    CountIn(s.waitqs[q], t);
  }

  /**
   The thread that a release takes off its wait queue waits no longer, and its timeout is stopped if that is asked for; it is not
   made ready yet.
   */
  lemma ReleaseAnswer(s: State, t: nat, q: nat, stop: bool)
    requires Inv(s) && t < |s.threads| && q < |s.waitqs|
    requires t in s.waitqs[q]
    ensures s.threads[t].pendedOn == Some(q)
    ensures var u := Next(s, DoUnpend(t));
      u == s.(threads := s.threads[t := s.threads[t].(pending := false, pendedOn := None, timer := false)],
              waitqs := s.waitqs[q := Removed(s.waitqs[q], t)])
    ensures t == s.waitqs[q][0] ==>
      var u, th := Next(s, DoUnpendFirst(q, stop)), s.threads[t];
      u == s.(threads := s.threads[t := th.(pending := false, pendedOn := None, timer := th.timer && !stop)],
              waitqs := s.waitqs[q := s.waitqs[q][1..]])
  {
    hide Core, CacheOk, Removed, Unpend;
    PendedHere(s, t, q);
    UnpendAnswer(s, t);
    if t == s.waitqs[q][0] {
      RemovedHead(s.waitqs[q]);
    }
  }
}
