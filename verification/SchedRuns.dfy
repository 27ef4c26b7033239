/** What every run of the scheduler keeps. */
module SchedRuns {
  import opened Lists
  import opened SchedModel

  // ----- The invariant -----

  /** In the run queue only if it can run; on a wait queue only while pending and alive. */
  ghost predicate ThreadOk(th: Thread, n: nat, stamps: nat) {
    && (th.queued ==> Ready(th) && th.stamp < stamps)
    && (th.pendedOn.Some? ==> th.pending && !th.dead && th.pendedOn.value < n)
    && th.joinq < n
  }

  ghost predicate ThreadsOk(threads: seq<Thread>, n: nat, stamps: nat) {
    forall t: nat :: t < |threads| ==> ThreadOk(threads[t], n, stamps)
  }

  ghost predicate InRunq(t: nat, th: Thread, runq: seq<nat>) { Count(runq, t) == if th.queued then 1 else 0 }

  ghost predicate RunPlaced(threads: seq<Thread>, runq: seq<nat>) {
    forall t: nat :: t < |threads| ==> InRunq(t, threads[t], runq)
  }

  ghost predicate InWaitq(t: nat, th: Thread, q: nat, list: seq<nat>) { Count(list, t) == if th.pendedOn == Some(q) then 1 else 0 }

  ghost predicate WaitPlaced(threads: seq<Thread>, waitqs: seq<seq<nat>>) {
    forall t: nat, q: nat :: t < |threads| && q < |waitqs| ==> InWaitq(t, threads[t], q, waitqs[q])
  }

  ghost predicate Below(list: seq<nat>, n: nat) { forall i :: 0 <= i < |list| ==> list[i] < n }

  ghost predicate AllBelow(waitqs: seq<seq<nat>>, n: nat) { forall q: nat :: q < |waitqs| ==> Below(waitqs[q], n) }

  /** Better priority, or the same priority and queued earlier. */
  ghost predicate Ahead(a: Thread, b: Thread) { a.prio < b.prio || (a.prio == b.prio && a.stamp < b.stamp) }

  ghost predicate RunSorted(threads: seq<Thread>, runq: seq<nat>) {
    && Below(runq, |threads|)
    && forall i, j :: 0 <= i < j < |runq| ==> Ahead(threads[runq[i]], threads[runq[j]])
  }

  ghost predicate IdleOk(s: State) {
    s.idle < |s.threads| && var th := s.threads[s.idle]; !th.queued && Ready(th) && th.pendedOn.None?
  }

  ghost predicate Core(s: State) {
    && ThreadsOk(s.threads, |s.waitqs|, s.stamps)
    && RunPlaced(s.threads, s.runq)
    && WaitPlaced(s.threads, s.waitqs)
    && AllBelow(s.waitqs, |s.threads|)
    && RunSorted(s.threads, s.runq)
    && IdleOk(s)
  }

  /** The current thread is idle, executing, or about to be switched out for good reason. */
  ghost predicate CurrentOk(s: State) {
    && s.current < |s.threads|
    && (s.current == s.idle ||
        var th := s.threads[s.current];
        !th.pending && !th.prestart && !th.dummy && !th.timer && (th.queued || th.suspended || th.dead))
  }

  /** The cache is what the run queue says, unless the current thread can run and cannot be preempted. */
  ghost predicate CacheOk(s: State) {
    && s.current < |s.threads|
    && (s.cache == Best(s) || (s.cache == s.current && !Preemptible(s.threads[s.current]) && !Prevented(s.threads[s.current])))
  }

  ghost predicate Inv(s: State) { Core(s) && CurrentOk(s) && CacheOk(s) }

  // ----- The pieces of a step keep the core -----

  lemma PlaceSorted(threads: seq<Thread>, runq: seq<nat>, t: nat, th: Thread, stamps: nat)
    requires RunSorted(threads, runq) && t < |threads| && t !in runq
    requires forall x: nat :: x in runq ==> threads[x].stamp < stamps
    requires th.stamp == stamps
    ensures RunSorted(threads[t := th], InsertAt(runq, Rank(Prios(threads, runq), th.prio), t))
  {
    hide Rank, InsertAt;
    var p := Rank(Prios(threads, runq), th.prio);
    var r, b := InsertAt(runq, p, t), threads[t := th];
    forall i | 0 <= i < |runq| ensures runq[i] < |threads| && b[runq[i]] == threads[runq[i]] && threads[runq[i]].stamp < stamps {
      assert runq[i] in runq;
    }
    forall i, j | 0 <= i < j < |r| ensures Ahead(b[r[i]], b[r[j]]) {
      if i == p {
        assert j - 1 > p ==> Ahead(threads[runq[p]], threads[runq[j - 1]]);
      } else if j != p {
        var x, y := if i < p then i else i - 1, if j < p then j else j - 1;
        assert Ahead(threads[runq[x]], threads[runq[y]]);
      }
    }
  }

  lemma RemoveSorted(threads: seq<Thread>, runq: seq<nat>, t: nat, th: Thread)
    requires RunSorted(threads, runq) && t < |threads| && Count(runq, t) == 1
    ensures RunSorted(threads[t := th], Removed(runq, t))
    ensures t !in Removed(runq, t)
  {
    hide Count, Find;
  }

  lemma QueueCore(s: State, t: nat)
    requires Core(s) && t < |s.threads| && t != s.idle && !s.threads[t].queued && Ready(s.threads[t])
    ensures Core(Queue(s, t))
  {
    hide Rank, InsertAt, Count;
    var u := Queue(s, t);
    var p := Rank(Prios(s.threads, s.runq), s.threads[t].prio);
    assert InRunq(t, s.threads[t], s.runq);
    CountIn(s.runq, t);
    forall x: nat | x in s.runq ensures s.threads[x].stamp < s.stamps {
      assert InRunq(x, s.threads[x], s.runq);
      CountIn(s.runq, x);
      assert ThreadOk(s.threads[x], |s.waitqs|, s.stamps);
    }
    PlaceSorted(s.threads, s.runq, t, u.threads[t], s.stamps);
    forall x: nat | x < |u.threads| ensures InRunq(x, u.threads[x], u.runq) {
      assert InRunq(x, s.threads[x], s.runq);
      CountInsert(s.runq, p, t, x);
    }
    forall x: nat | x < |u.threads| ensures ThreadOk(u.threads[x], |u.waitqs|, u.stamps) {
      assert ThreadOk(s.threads[x], |s.waitqs|, s.stamps);
    }
    forall x: nat, q: nat | x < |u.threads| && q < |u.waitqs| ensures InWaitq(x, u.threads[x], q, u.waitqs[q]) {
      assert InWaitq(x, s.threads[x], q, s.waitqs[q]);
    }
  }

  lemma DequeueCore(s: State, t: nat)
    requires Core(s) && t < |s.threads| && s.threads[t].queued
    ensures Core(Dequeue(s, t))
  {
    hide Count, Removed;
    var u := Dequeue(s, t);
    assert InRunq(t, s.threads[t], s.runq);
    RemoveSorted(s.threads, s.runq, t, u.threads[t]);
    forall x: nat | x < |u.threads| ensures InRunq(x, u.threads[x], u.runq) {
      assert InRunq(x, s.threads[x], s.runq);
      CountIn(s.runq, t);
      CountRemoved(s.runq, t, x);
    }
    forall x: nat | x < |u.threads| ensures ThreadOk(u.threads[x], |u.waitqs|, u.stamps) {
      assert ThreadOk(s.threads[x], |s.waitqs|, s.stamps);
    }
    forall x: nat, q: nat | x < |u.threads| && q < |u.waitqs| ensures InWaitq(x, u.threads[x], q, u.waitqs[q]) {
      assert InWaitq(x, s.threads[x], q, s.waitqs[q]);
    }
  }

  lemma OffCore(s: State, t: nat)
    requires Core(s) && t < |s.threads|
    ensures Core(Off(s, t)) && !Off(s, t).threads[t].queued
    ensures Off(s, t).threads[t] == s.threads[t].(queued := false)
  {
    if s.threads[t].queued {
      DequeueCore(s, t);
    }
    hide Core;
  }

  /** Bits that do not say where the thread is may change, its priority only while it is out of the run queue. */
  lemma FlagsCore(s: State, t: nat, th: Thread)
    requires Core(s) && t < |s.threads| && ThreadOk(th, |s.waitqs|, s.stamps)
    requires th.queued == s.threads[t].queued && th.pendedOn == s.threads[t].pendedOn
    requires th.queued ==> th.prio == s.threads[t].prio && th.stamp == s.threads[t].stamp
    requires t == s.idle ==> Ready(th)
    ensures Core(s.(threads := s.threads[t := th]))
  {
    hide Count;
    var u := s.(threads := s.threads[t := th]);
    assert InRunq(t, s.threads[t], s.runq);
    CountIn(s.runq, t);
    forall x: nat | x < |u.threads| ensures InRunq(x, u.threads[x], u.runq) {
      assert InRunq(x, s.threads[x], s.runq);
    }
    forall x: nat, q: nat | x < |u.threads| && q < |u.waitqs| ensures InWaitq(x, u.threads[x], q, u.waitqs[q]) {
      assert InWaitq(x, s.threads[x], q, s.waitqs[q]);
    }
    forall i, j | 0 <= i < j < |u.runq| ensures Ahead(u.threads[u.runq[i]], u.threads[u.runq[j]]) {
      assert Ahead(s.threads[u.runq[i]], s.threads[u.runq[j]]);
    }
  }

  lemma SetTimerCore(s: State, t: nat, on: bool)
    requires Core(s) && t < |s.threads| && (on ==> !s.threads[t].queued && t != s.idle)
    ensures Core(SetTimer(s, t, on))
  {
  }

  lemma JoinPlaced(s: State, t: nat, q: nat)
    requires Core(s) && t < |s.threads| && q < |s.waitqs| && s.threads[t].pendedOn.None?
    ensures var u := Join(s, t, Some(q)); WaitPlaced(u.threads, u.waitqs) && AllBelow(u.waitqs, |u.threads|)
  {
    hide Rank, InsertAt, Count;
    var u := Join(s, t, Some(q));
    var list := s.waitqs[q];
    var p := Rank(Prios(s.threads, list), s.threads[t].prio);
    InsertIn(list, p, t);
    assert Below(list, |s.threads|);
    forall x: nat, r: nat | x < |u.threads| && r < |u.waitqs| ensures InWaitq(x, u.threads[x], r, u.waitqs[r]) {
      assert InWaitq(x, s.threads[x], r, s.waitqs[r]);
      CountInsert(list, p, t, x);
    }
    forall r: nat | r < |u.waitqs| ensures Below(u.waitqs[r], |u.threads|) {
      assert Below(s.waitqs[r], |s.threads|);
    }
  }

  lemma JoinCore(s: State, t: nat, q: Option<nat>)
    requires Core(s) && t < |s.threads| && (q.Some? ==> q.value < |s.waitqs|)
    requires t != s.idle && !s.threads[t].queued && s.threads[t].pendedOn.None? && !s.threads[t].dead
    ensures Core(Join(s, t, q))
  {
    hide Count, Rank;
    assert ThreadOk(s.threads[t], |s.waitqs|, s.stamps);
    if q.None? {
      FlagsCore(s, t, s.threads[t].(pending := true));
    } else {
      JoinPlaced(s, t, q.value);
      hide WaitPlaced, AllBelow;
      var u := Join(s, t, q);
      forall x: nat | x < |u.threads| ensures InRunq(x, u.threads[x], u.runq) {
        assert InRunq(x, s.threads[x], s.runq);
      }
      forall i, j | 0 <= i < j < |u.runq| ensures Ahead(u.threads[u.runq[i]], u.threads[u.runq[j]]) {
        assert Ahead(s.threads[u.runq[i]], s.threads[u.runq[j]]);
      }
    }
  }

  lemma RemovedBelow(list: seq<nat>, t: nat, n: nat)
    requires Below(list, n)
    ensures Below(Removed(list, t), n)
  {
  }

  lemma UnpendPlaced(s: State, t: nat)
    requires Core(s) && t < |s.threads|
    ensures var u := Unpend(s, t); WaitPlaced(u.threads, u.waitqs) && AllBelow(u.waitqs, |u.threads|)
  {
    hide Removed, Count;
    var u := Unpend(s, t);
    assert ThreadOk(s.threads[t], |s.waitqs|, s.stamps);
    if s.threads[t].pendedOn.Some? {
      var q := s.threads[t].pendedOn.value;
      var list := s.waitqs[q];
      assert InWaitq(t, s.threads[t], q, list);
      CountIn(list, t);
      forall x: nat, r: nat | x < |u.threads| && r < |u.waitqs| ensures InWaitq(x, u.threads[x], r, u.waitqs[r]) {
        assert InWaitq(x, s.threads[x], r, s.waitqs[r]);
        CountRemoved(list, t, x);
      }
      forall r: nat | r < |u.waitqs| ensures Below(u.waitqs[r], |u.threads|) {
        assert Below(s.waitqs[r], |s.threads|);
        RemovedBelow(list, t, |s.threads|);
      }
    }
  }

  lemma UnpendCore(s: State, t: nat)
    requires Core(s) && t < |s.threads|
    ensures Core(Unpend(s, t)) && Unpend(s, t).threads[t].pendedOn.None?
  {
    UnpendPlaced(s, t);
    hide Count, Removed, WaitPlaced, AllBelow;
    var u := Unpend(s, t);
    assert ThreadOk(s.threads[t], |s.waitqs|, s.stamps);
    forall x: nat | x < |u.threads| ensures InRunq(x, u.threads[x], u.runq) {
      assert InRunq(x, s.threads[x], s.runq);
    }
    forall i, j | 0 <= i < j < |u.runq| ensures Ahead(u.threads[u.runq[i]], u.threads[u.runq[j]]) {
      assert Ahead(s.threads[u.runq[i]], s.threads[u.runq[j]]);
    }
  }

  /** Choosing anew is always right. */
  lemma CacheUpdated(s: State, ok: bool)
    requires s.current < |s.threads|
    ensures CacheOk(UpdateCache(s, ok))
    ensures Core(s) ==> Core(UpdateCache(s, ok))
    ensures CurrentOk(s) ==> CurrentOk(UpdateCache(s, ok))
  {
  }

  // ----- The steps -----

  lemma MakeReadyCore(s: State, t: nat)
    requires Core(s) && t < |s.threads| && t != s.idle && s.current < |s.threads|
    ensures Core(MakeReady(s, t))
    ensures CacheOk(s) ==> CacheOk(MakeReady(s, t))
    ensures t != s.current && CurrentOk(s) ==> CurrentOk(MakeReady(s, t))
  {
    if !s.threads[t].queued && Ready(s.threads[t]) {
      QueueCore(s, t);
      hide Core, Rank, InsertAt;
      CacheUpdated(Queue(s, t), false);
    }
    hide Core, Rank, InsertAt;
  }

  lemma ReadyInv(s: State, t: nat)
    requires Inv(s) && t < |s.threads| && t != s.idle
    ensures Inv(MakeReady(s, t))
  {
    MakeReadyCore(s, t);
    hide Core, CacheOk;
  }

  lemma StartInv(s: State, t: nat)
    requires Inv(s) && t < |s.threads| && t != s.idle
    ensures Inv(Start(s, t))
  {
    if s.threads[t].prestart {
      assert ThreadOk(s.threads[t], |s.waitqs|, s.stamps);
      FlagsCore(s, t, s.threads[t].(prestart := false));
      hide Core, MakeReady;
      MakeReadyCore(s.(threads := s.threads[t := s.threads[t].(prestart := false)]), t);
    }
  }

  lemma SuspendInv(s: State, t: nat)
    requires Inv(s) && t < |s.threads| && t != s.idle
    ensures Inv(Suspend(s, t))
  {
    SetTimerCore(s, t, false);
    OffCore(SetTimer(s, t, false), t);
    var u := Off(SetTimer(s, t, false), t);
    assert u.current == s.current && |u.threads| == |s.threads| && (t != s.current ==> u.threads[s.current] == s.threads[s.current]);
    assert u.idle == s.idle && u.stamps == s.stamps && |u.waitqs| == |s.waitqs|;
    hide Off, SetTimer;
    assert ThreadOk(u.threads[t], |u.waitqs|, u.stamps);
    FlagsCore(u, t, u.threads[t].(suspended := true));
    hide Core, UpdateCache;
    CacheUpdated(u.(threads := u.threads[t := u.threads[t].(suspended := true)]), t == s.current);
  }

  /** Clearing the suspended bit of a thread that is not running anyway. */
  lemma UnsuspendInv(s: State, t: nat)
    requires Inv(s) && t < |s.threads| && t != s.idle
    ensures Inv(Unsuspend(s, t))
  {
    assert ThreadOk(s.threads[t], |s.waitqs|, s.stamps);
    FlagsCore(s, t, s.threads[t].(suspended := false));
    var u := s.(threads := s.threads[t := s.threads[t].(suspended := false)]);
    MakeReadyCore(u, t);
    hide Core, Rank, InsertAt;
    if t == s.current && s.threads[t].queued {
      assert u == s;
    }
  }

  lemma ExpireInv(s: State, t: nat)
    requires Inv(s) && t < |s.threads| && t != s.idle
    ensures Inv(Expire(s, t))
  {
    if s.threads[t].timer {
      SetTimerCore(s, t, false);
      var u := SetTimer(s, t, false);
      UnpendCore(u, t);
      var v := Unpend(u, t);
      assert v.current == s.current && v.cache == s.cache && v.idle == s.idle && v.runq == s.runq && |v.threads| == |s.threads|;
      assert t != s.current;
      assert v.threads[s.current] == s.threads[s.current];
      hide Unpend;
      assert ThreadOk(v.threads[t], |v.waitqs|, v.stamps);
      FlagsCore(v, t, v.threads[t].(prestart := false, suspended := false));
      hide Core, MakeReady;
      MakeReadyCore(v.(threads := v.threads[t := v.threads[t].(prestart := false, suspended := false)]), t);
    }
  }

  lemma SetPrioInv(s: State, t: nat, prio: int)
    requires Inv(s) && t < |s.threads| && t != s.idle && (Ready(s.threads[t]) ==> s.threads[t].queued)
    ensures Inv(SetPrio(s, t, prio))
  {
    assert ThreadOk(s.threads[t], |s.waitqs|, s.stamps);
    if Ready(s.threads[t]) {
      DequeueCore(s, t);
      var u := Dequeue(s, t);
      FlagsCore(u, t, u.threads[t].(prio := prio));
      var v := u.(threads := u.threads[t := u.threads[t].(prio := prio)]);
      QueueCore(v, t);
      hide Core, Rank, InsertAt, Removed;
      CacheUpdated(Queue(v, t), true);
    } else {
      FlagsCore(s, t, s.threads[t].(prio := prio));
      hide Core;
    }
  }

  lemma UnreadyCore(s: State, t: nat)
    requires Core(s) && t < |s.threads| && s.current < |s.threads|
    ensures var u := Unready(s, t);
      && Core(u) && CacheOk(u) && u.current == s.current && u.idle == s.idle
      && |u.threads| == |s.threads| && |u.waitqs| == |s.waitqs|
      && u.threads[t] == s.threads[t].(queued := false)
      && (forall x :: 0 <= x < |s.threads| && x != t ==> u.threads[x] == s.threads[x])
      && (t == s.current ==> u.cache == Best(u))
  {
    OffCore(s, t);
    CacheUpdated(Off(s, t), t == s.current);
    hide Core, Removed;
  }

  lemma PendCore(s: State, t: nat, q: Option<nat>, timed: bool)
    requires Core(s) && t < |s.threads| && s.current < |s.threads| && (q.Some? ==> q.value < |s.waitqs|)
    requires t != s.idle && s.threads[t].pendedOn.None? && !s.threads[t].dead
    ensures var u := Pend(s, t, q, timed);
      && Core(u) && u.current == s.current && u.idle == s.idle && |u.threads| == |s.threads|
      && u.cache == Unready(s, t).cache && u.runq == Unready(s, t).runq
      && (forall x :: 0 <= x < |s.threads| && x != t ==> u.threads[x] == s.threads[x])
  {
    UnreadyCore(s, t);
    var u := Unready(s, t);
    hide Unready;
    JoinCore(u, t, q);
    var v := Join(u, t, q);
    assert v.threads[t].queued == u.threads[t].queued && |v.threads| == |u.threads|;
    hide Core;
    SetTimerCore(v, t, true);
  }

  /** Switching to the cached thread. */
  lemma SwapInv(s: State)
    requires Core(s) && CacheOk(s) && (s.cache == Best(s) || CurrentOk(s))
    ensures Inv(Swap(s))
  {
  }

  lemma PendInv(s: State, q: Option<nat>, timed: bool)
    requires Inv(s) && Acting(s) && (q.Some? ==> q.value < |s.waitqs|)
    ensures Inv(Swap(Pend(s, s.current, q, timed)))
  {
    assert ThreadOk(s.threads[s.current], |s.waitqs|, s.stamps);
    PendCore(s, s.current, q, timed);
    UnreadyCore(s, s.current);
    hide Core, Pend, Unready;
    SwapInv(Pend(s, s.current, q, timed));
  }

  lemma PendDummyInv(s: State, t: nat, q: Option<nat>, timed: bool)
    requires Inv(s) && Enabled(s, DoPendDummy(t, q, timed))
    ensures Inv(Pend(s, t, q, timed))
  {
    PendCore(s, t, q, timed);
    UnreadyCore(s, t);
    hide Core, Pend, Unready;
  }

  /** Unpending concerns a thread that is not the current one. */
  lemma UnpendHalf(s: State, t: nat, stop: bool)
    requires Core(s) && CurrentOk(s) && t < |s.threads| && s.threads[t].pendedOn.Some?
    ensures t != s.current && t != s.idle
    ensures var u := if stop then SetTimer(Unpend(s, t), t, false) else Unpend(s, t);
      && Core(u) && CurrentOk(u) && (CacheOk(s) ==> CacheOk(u))
      && u.current == s.current && u.idle == s.idle && |u.threads| == |s.threads| && |u.waitqs| == |s.waitqs|
  {
    assert ThreadOk(s.threads[t], |s.waitqs|, s.stamps);
    UnpendCore(s, t);
    SetTimerCore(Unpend(s, t), t, false);
    hide ThreadsOk, RunPlaced, WaitPlaced, AllBelow, RunSorted, Removed;
  }

  /** A thread found on a wait queue is pended there. */
  lemma OnWaitq(s: State, q: nat)
    requires Core(s) && q < |s.waitqs| && s.waitqs[q] != []
    ensures s.waitqs[q][0] < |s.threads| && s.threads[s.waitqs[q][0]].pendedOn == Some(q)
  {
  }

  lemma WakeHalf(s: State, t: nat)
    requires Core(s) && CurrentOk(s) && t < |s.threads| && s.threads[t].pendedOn.Some?
    ensures var u := Wake(s, t); Core(u) && CurrentOk(u) && (CacheOk(s) ==> CacheOk(u))
  {
    UnpendHalf(s, t, true);
    hide Core, CurrentOk, CacheOk, MakeReady, Unpend;
    MakeReadyCore(SetTimer(Unpend(s, t), t, false), t);
  }

  lemma {:induction false} WakeAllHalf(s: State, q: nat)
    requires Core(s) && CurrentOk(s) && q < |s.waitqs|
    ensures var u := WakeAll(s, q); Core(u) && CurrentOk(u) && (CacheOk(s) ==> CacheOk(u))
    decreases |s.waitqs[q]|
  {
    if s.waitqs[q] != [] {
      var t := s.waitqs[q][0];
      OnWaitq(s, q);
      WakeHalf(s, t);
      hide Core, CacheOk, Wake;
      var u := Wake(s, t);
      if |u.waitqs[q]| < |s.waitqs[q]| {
        WakeAllHalf(u, q);
      }
    }
  }

  /** Waking all really empties the wait queue. */
  lemma {:induction false} WakeAllEmpties(s: State, q: nat)
    requires Core(s) && CurrentOk(s) && q < |s.waitqs|
    ensures WakeAll(s, q).waitqs[q] == []
    decreases |s.waitqs[q]|
  {
    if s.waitqs[q] != [] {
      var t := s.waitqs[q][0];
      OnWaitq(s, q);
      WakeHalf(s, t);
      var u := Wake(s, t);
      assert Find(s.waitqs[q], t) == 0;
      assert |u.waitqs[q]| == |s.waitqs[q]| - 1;
      hide Core, Wake;
      WakeAllEmpties(u, q);
    }
  }

  lemma OffDying(s: State, t: nat)
    requires t < |s.threads| && s.current < |s.threads|
    ensures var o := Off(s, t);
      && Off(s.(threads := s.threads[t := s.threads[t].(dead := true)]), t) == o.(threads := o.threads[t := o.threads[t].(dead := true)])
      && o.threads[t] == s.threads[t].(queued := false) && |o.threads| == |s.threads|
      && o.current == s.current && o.idle == s.idle && (s.current != t ==> o.threads[s.current] == s.threads[s.current])
  {
    hide Removed;
  }

  lemma UnpendDying(s: State, t: nat)
    requires t < |s.threads| && s.current < |s.threads|
    ensures var p := Unpend(s, t);
      && SetTimer(Unpend(s.(threads := s.threads[t := s.threads[t].(dead := true)]), t), t, false)
         == p.(threads := p.threads[t := p.threads[t].(dead := true, timer := false)])
      && |p.threads| == |s.threads| && p.current == s.current && p.idle == s.idle
      && p.threads[t] == s.threads[t].(pending := p.threads[t].pending, pendedOn := p.threads[t].pendedOn)
      && (p.threads[t].pending ==> s.threads[t].pending)
      && (s.current != t ==> p.threads[s.current] == s.threads[s.current])
  {
    hide Removed;
  }

  /** The order in which the bits of a dying thread change does not matter. */
  lemma DyingSame(s: State, t: nat)
    requires t < |s.threads| && s.current < |s.threads|
    ensures var u := Off(s.(threads := s.threads[t := s.threads[t].(dead := true)]), t);
      var v := SetTimer(Unpend(u, t), t, false);
      var p := Unpend(Off(s, t), t);
      && v == p.(threads := p.threads[t := p.threads[t].(dead := true, timer := false)])
      && v.current == s.current && |v.threads| == |s.threads| && v.idle == s.idle
      && (s.current != t ==> v.threads[s.current] == s.threads[s.current])
      && v.threads[t].dead && !v.threads[t].timer && !v.threads[t].queued
      && (v.threads[t].pending ==> s.threads[t].pending) && v.threads[t].prestart == s.threads[t].prestart
      && v.threads[t].dummy == s.threads[t].dummy
  {
    hide Off, Unpend, SetTimer;
    OffDying(s, t);
    UnpendDying(Off(s, t), t);
  }

  lemma DyingHalf(s: State, t: nat)
    requires Inv(s) && t < |s.threads| && t != s.idle && !s.threads[t].dead
    ensures var u := Off(s.(threads := s.threads[t := s.threads[t].(dead := true)]), t);
      var v := SetTimer(Unpend(u, t), t, false);
      Core(v) && CurrentOk(v) && v.threads[t].pendedOn.None? && !v.threads[t].queued
  {
    assert ThreadOk(s.threads[t], |s.waitqs|, s.stamps);
    OffCore(s, t);
    var o := Off(s, t);
    UnpendCore(o, t);
    var p := Unpend(o, t);
    assert ThreadOk(p.threads[t], |p.waitqs|, p.stamps);
    FlagsCore(p, t, p.threads[t].(dead := true, timer := false));
    DyingSame(s, t);
    hide Core, Off, Unpend;
  }

  lemma KillInv(s: State, t: nat)
    requires Inv(s) && t < |s.threads| && t != s.idle
    ensures s.threads[t].joinq < |s.waitqs| && Inv(Kill(s, t))
  {
    assert ThreadOk(s.threads[t], |s.waitqs|, s.stamps);
    if !s.threads[t].dead {
      DyingHalf(s, t);
      var u := Off(s.(threads := s.threads[t := s.threads[t].(dead := true)]), t);
      var v := SetTimer(Unpend(u, t), t, false);
      assert |v.waitqs| == |s.waitqs|;
      hide Off, Unpend, Core, CurrentOk, WakeAll;
      WakeAllHalf(v, s.threads[t].joinq);
      CacheUpdated(WakeAll(v, s.threads[t].joinq), true);
    }
  }

  /** Nobody is left waiting to join a dead thread. */
  lemma KillReleases(s: State, t: nat)
    requires Inv(s) && t < |s.threads| && t != s.idle && !s.threads[t].dead
    ensures s.threads[t].joinq < |s.waitqs| && Kill(s, t).waitqs[s.threads[t].joinq] == []
  {
    assert ThreadOk(s.threads[t], |s.waitqs|, s.stamps);
    DyingHalf(s, t);
    var u := Off(s.(threads := s.threads[t := s.threads[t].(dead := true)]), t);
    var v := SetTimer(Unpend(u, t), t, false);
    assert |v.waitqs| == |s.waitqs|;
    hide Off, Unpend, Core, CurrentOk, WakeAll;
    WakeAllEmpties(v, s.threads[t].joinq);
  }

  // ----- Runs -----

  lemma YieldInv(s: State)
    requires Inv(s) && Acting(s)
    ensures Inv(Yield(s))
  {
    var t := s.current;
    assert ThreadOk(s.threads[t], |s.waitqs|, s.stamps);
    DequeueCore(s, t);
    QueueCore(Dequeue(s, t), t);
    hide Core, Rank, InsertAt, Removed;
    CacheUpdated(Queue(Dequeue(s, t), t), true);
    SwapInv(UpdateCache(Queue(Dequeue(s, t), t), true));
  }

  lemma SleepInv(s: State)
    requires Inv(s) && Acting(s)
    ensures Inv(Sleep(s))
  {
    var t := s.current;
    UnreadyCore(s, t);
    var u := Unready(s, t);
    hide Unready;
    SetTimerCore(u, t, true);
    var v := SetTimer(u, t, true);
    assert ThreadOk(v.threads[t], |v.waitqs|, v.stamps);
    FlagsCore(v, t, v.threads[t].(suspended := true));
    hide Core;
    SwapInv(v.(threads := v.threads[t := v.threads[t].(suspended := true)]));
  }

  lemma LockInv(s: State)
    requires Inv(s)
    ensures Inv(LockSched(s)) && Inv(UnlockSched(s))
  {
    var th := s.threads[s.current];
    assert ThreadOk(th, |s.waitqs|, s.stamps);
    FlagsCore(s, s.current, th.(locked := th.locked + 1));
    if th.locked > 0 {
      FlagsCore(s, s.current, th.(locked := th.locked - 1));
      hide Core;
      CacheUpdated(s.(threads := s.threads[s.current := th.(locked := th.locked - 1)]), false);
    }
    hide Core;
  }

  lemma SliceInv(s: State, max: int)
    requires Inv(s)
    ensures Inv(Slice(s, max))
  {
    if Sliceable(s, max) {
      var t := s.current;
      OffCore(s, t);
      QueueCore(Off(s, t), t);
      hide Core, Rank, InsertAt, Removed;
      CacheUpdated(Queue(Off(s, t), t), true);
    }
  }

  lemma JoinInv(s: State, t: nat, noWait: bool, timed: bool)
    requires Inv(s) && Acting(s) && t < |s.threads| && s.threads[t].joinq < |s.waitqs|
    ensures Inv(JoinThread(s, t, noWait, timed))
  {
    hide Inv, Pend;
    PendInv(s, Some(s.threads[t].joinq), timed);
  }

  lemma WakeupInv(s: State, t: nat)
    requires Inv(s) && t < |s.threads| && t != s.idle
    ensures Inv(Wakeup(s, t))
  {
    SetTimerCore(s, t, false);
    var u := SetTimer(s, t, false);
    hide Core, Unsuspend;
    assert t == s.current ==> u == s;
    UnsuspendInv(u, t);
  }

  lemma WaitStepInv(s: State, step: Step)
    requires Inv(s) && Enabled(s, step)
    requires step.DoUnpend? || step.DoUnpendFirst? || step.DoWake? || step.DoWakeAll?
    ensures Inv(Next(s, step))
  {
    hide Core, CurrentOk, CacheOk, Unpend, Wake;
    match step
    case DoUnpend(t) => UnpendHalf(s, t, true);
    case DoUnpendFirst(q, stop) =>
      if s.waitqs[q] != [] {
        OnWaitq(s, q);
        UnpendHalf(s, s.waitqs[q][0], stop);
      }
    case DoWake(q) =>
      if s.waitqs[q] != [] {
        OnWaitq(s, q);
        WakeHalf(s, s.waitqs[q][0]);
      }
    case DoWakeAll(q) => WakeAllHalf(s, q);
  }

  lemma ResumeInv(s: State, t: nat)
    requires Inv(s) && t < |s.threads| && t != s.idle
    ensures Inv(Resume(s, t))
  {
    hide Inv, Unsuspend;
    UnsuspendInv(s, t);
  }

  predicate OfThread(step: Step) {
    step.DoReady? || step.DoStart? || step.DoSuspend? || step.DoResume? || step.DoWakeup? || step.DoExpire? || step.DoAbort?
    || step.DoSetPrio?
  }

  lemma ThreadStepInv(s: State, step: Step)
    requires Inv(s) && Enabled(s, step) && OfThread(step)
    ensures Inv(Next(s, step))
  {
    hide Inv, MakeReady, Start, Suspend, Resume, Wakeup, Expire, Kill, SetPrio;
    match step
    case DoReady(t) => ReadyInv(s, t);
    case DoStart(t) => StartInv(s, t);
    case DoSuspend(t) => SuspendInv(s, t);
    case DoResume(t) => ResumeInv(s, t);
    case DoWakeup(t) => WakeupInv(s, t);
    case DoExpire(t) => ExpireInv(s, t);
    case DoAbort(t) => KillInv(s, t);
    case DoSetPrio(t, prio) => SetPrioInv(s, t, prio);
  }

  lemma CurrentStepInv(s: State, step: Step)
    requires Inv(s) && Enabled(s, step) && !OfThread(step)
    requires !(step.DoUnpend? || step.DoUnpendFirst? || step.DoWake? || step.DoWakeAll?)
    ensures Inv(Next(s, step))
  {
    if step.DoSwap? {
      SwapInv(s);
    }
    hide Inv, Pend, Yield, Sleep, LockSched, UnlockSched, Slice, JoinThread, Swap;
    match step
    case DoPend(q, timed) => PendInv(s, q, timed);
    case DoPendDummy(t, q, timed) => PendDummyInv(s, t, q, timed);
    case DoYield => YieldInv(s);
    case DoSleep => SleepInv(s);
    case DoLock => LockInv(s);
    case DoUnlock => LockInv(s);
    case DoSlice(max) => SliceInv(s, max);
    case DoJoin(t, noWait, timed) => JoinInv(s, t, noWait, timed);
    case DoSwap =>
  }

  lemma NextInv(s: State, step: Step)
    requires Inv(s)
    ensures Inv(Next(s, step))
  {
    hide Inv;
    if Enabled(s, step) {
      if OfThread(step) {
        ThreadStepInv(s, step);
      } else if step.DoUnpend? || step.DoUnpendFirst? || step.DoWake? || step.DoWakeAll? {
        WaitStepInv(s, step);
      } else {
        CurrentStepInv(s, step);
      }
    }
  }

  lemma {:induction false} RunInv(s: State, steps: seq<Step>)
    requires Inv(s)
    ensures Inv(Run(s, steps))
    decreases |steps|
  {
    hide Inv, Next;
    if steps != [] {
      NextInv(s, steps[0]);
      RunInv(Next(s, steps[0]), steps[1..]);
    }
  }

  /** At boot the idle thread is current, nothing is queued anywhere, and the other threads are not started or are dummies. */
  ghost predicate Boot(s: State) {
    && s.idle < |s.threads| && s.current == s.idle && s.cache == s.idle && s.runq == []
    && (forall q :: 0 <= q < |s.waitqs| ==> s.waitqs[q] == [])
    && (forall t :: 0 <= t < |s.threads| ==>
          var th := s.threads[t];
          !th.queued && !th.pending && !th.dead && !th.suspended && th.pendedOn.None? && th.locked == 0
          && th.joinq < |s.waitqs|
          && (if t == s.idle then !th.prestart && !th.dummy && !th.timer && th.prio >= 0 else th.prestart || th.dummy))
  }

  lemma BootInv(s: State)
    requires Boot(s)
    ensures Inv(s)
  {
  }

  // ----- What a reader of the scheduler relies on -----

  /**
   In every reachable state a thread has the queued bit exactly when it is in the run queue, once; it is on the wait queue
   that it is pended on, once, and on no other; never on both; and a dead thread is on none.
   */
  lemma Placement(s0: State, steps: seq<Step>, t: nat, q: nat)
    requires Boot(s0)
    ensures var s := Run(s0, steps);
      t < |s.threads| && s.threads[t].pendedOn.Some? ==> s.threads[t].pendedOn.value < |s.waitqs|
    ensures var s := Run(s0, steps);
      t < |s.threads| && q < |s.waitqs| ==>
        && Count(s.runq, t) == (if s.threads[t].queued then 1 else 0)
        && Count(s.waitqs[q], t) == (if s.threads[t].pendedOn == Some(q) then 1 else 0)
        && !(s.threads[t].queued && s.threads[t].pendedOn.Some?)
        && (s.threads[t].dead ==> !s.threads[t].queued && s.threads[t].pendedOn.None?)
        && (s.threads[t].queued ==> Ready(s.threads[t]))
  {
    BootInv(s0);
    RunInv(s0, steps);
    var s := Run(s0, steps);
    hide Run;
    if t < |s.threads| {
      assert ThreadOk(s.threads[t], |s.waitqs|, s.stamps);
    }
    if t < |s.threads| && q < |s.waitqs| {
      assert InRunq(t, s.threads[t], s.runq);
      assert InWaitq(t, s.threads[t], q, s.waitqs[q]);
    }
  }

  /** The run queue is sorted by priority, first come first served within one. */
  lemma FifoOrder(s0: State, steps: seq<Step>, i: nat, j: nat)
    requires Boot(s0)
    ensures var s := Run(s0, steps);
      i < j < |s.runq| ==>
        && s.runq[i] < |s.threads| && s.runq[j] < |s.threads|
        && Ahead(s.threads[s.runq[i]], s.threads[s.runq[j]])
  {
    BootInv(s0);
    RunInv(s0, steps);
    hide Run;
  }

  /**
   After every operation and every switch: when the current thread can be preempted or cannot run, the cached next thread
   is the head of the run queue, or the idle thread if and only if the run queue is empty.
   */
  lemma CacheAgrees(s0: State, steps: seq<Step>)
    requires Boot(s0)
    ensures var s := Run(s0, steps);
      && s.current < |s.threads|
      && var th := s.threads[s.current];
         ((th.prio >= 0 && th.locked == 0) || th.pending || th.prestart || th.dead || th.dummy || th.suspended ==>
            && (s.runq != [] ==> s.cache == s.runq[0])
            && (s.cache == s.idle <==> s.runq == []))
  {
    BootInv(s0);
    RunInv(s0, steps);
    var s := Run(s0, steps);
    hide Run;
    if s.runq != [] {
      assert InRunq(s.runq[0], s.threads[s.runq[0]], s.runq);
    }
  }

  /** So when no switch is due and the current thread is preemptible, no thread in the run queue is better than it. */
  lemma BestRuns(s0: State, steps: seq<Step>, t: nat)
    requires Boot(s0)
    ensures var s := Run(s0, steps);
      && s.current < |s.threads|
      && (s.cache == s.current && s.threads[s.current].prio >= 0 && s.threads[s.current].locked == 0
          && t < |s.threads| && s.threads[t].queued ==>
            && s.current != s.idle
            && s.threads[s.current].prio <= s.threads[t].prio)
  {
    CacheAgrees(s0, steps);
    BootInv(s0);
    RunInv(s0, steps);
    var s := Run(s0, steps);
    hide Run, Count;
    if t < |s.threads| && s.threads[t].queued {
      assert InRunq(t, s.threads[t], s.runq);
      CountIn(s.runq, t);
      var i :| 0 <= i < |s.runq| && s.runq[i] == t;
      assert i > 0 ==> Ahead(s.threads[s.runq[0]], s.threads[s.runq[i]]);
    }
  }

  // ----- What single operations achieve -----

  /** A thread whose timeout expires runs again, unless it is dead, a dummy, or pending without a wait queue. */
  lemma ExpiryReadies(s: State, t: nat)
    requires Inv(s) && t < |s.threads| && t != s.idle && s.threads[t].timer
    ensures var u := Expire(s, t);
      && |u.threads| == |s.threads| && !u.threads[t].timer && u.threads[t].pendedOn.None?
      && (u.threads[t].queued <==>
            !s.threads[t].dead && !s.threads[t].dummy && (s.threads[t].pending ==> s.threads[t].pendedOn.Some?))
  {
    assert ThreadOk(s.threads[t], |s.waitqs|, s.stamps);
    hide Rank, InsertAt, Core, Removed;
  }

  /** Where a queued thread is in the run queue. */
  lemma InRunqAt(s: State, t: nat) returns (i: nat)
    requires Core(s) && t < |s.threads| && s.threads[t].queued
    ensures i < |s.runq| && s.runq[i] == t
  {
    hide Count;
    assert InRunq(t, s.threads[t], s.runq);
    CountIn(s.runq, t);
    i :| 0 <= i < |s.runq| && s.runq[i] == t;
  }

  /** A newly queued thread is not the best while a queued one is no worse. */
  lemma BehindEqual(s: State, c: nat, t: nat)
    requires Core(s) && c < |s.threads| && t < |s.threads| && t != c && s.threads[t].queued && !s.threads[c].queued
    requires s.threads[t].prio <= s.threads[c].prio
    ensures Queue(s, c).runq != [] && Queue(s, c).runq[0] != c
  {
    hide Rank, InsertAt, Count;
    var i := InRunqAt(s, t);
    var p := Rank(Prios(s.threads, s.runq), s.threads[c].prio);
    assert i > 0 ==> Ahead(s.threads[s.runq[0]], s.threads[s.runq[i]]);
    assert p > 0;
    assert InRunq(c, s.threads[c], s.runq);
    CountIn(s.runq, c);
    assert s.runq[0] in s.runq;
  }

  /** After yielding, the current thread runs on only if every other queued thread has a worse priority. */
  lemma YieldGivesWay(s: State, t: nat)
    requires Inv(s) && Acting(s) && t < |s.threads| && t != s.current && s.threads[t].queued
    requires s.threads[t].prio <= s.threads[s.current].prio
    ensures Yield(s).current != s.current
  {
    var c := s.current;
    assert ThreadOk(s.threads[c], |s.waitqs|, s.stamps);
    DequeueCore(s, c);
    var d := Dequeue(s, c);
    assert d.threads[t] == s.threads[t] && d.threads[c].prio == s.threads[c].prio;
    BehindEqual(d, c, t);
    hide Core, Rank, InsertAt, Removed;
  }

  /** The same at the end of a time slice. */
  lemma SliceGivesWay(s: State, max: int, t: nat)
    requires Inv(s) && Sliceable(s, max) && t < |s.threads| && t != s.current && s.threads[t].queued
    requires s.threads[t].prio <= s.threads[s.current].prio
    ensures Slice(s, max).cache != s.current
  {
    var c := s.current;
    OffCore(s, c);
    var d := Off(s, c);
    assert d.threads[t] == s.threads[t] && |d.threads| == |s.threads| && d.current == c;
    BehindEqual(d, c, t);
    hide Core, Rank, InsertAt, Removed, Off;
  }
}
