/** What every run of the work-queue machine keeps. */
module WorkRuns {
  import opened Lists
  import opened WorkModel

  // ----- The invariant -----

  /** Item `w` is in the list of queue `q` exactly once when it is queued there and never otherwise, and likewise for running. */
  ghost predicate Rel(w: nat, it: Item, q: nat, queue: WorkQ) {
    && Count(queue.pending, Work(w)) == (if it.queued && it.queue == Some(q) then 1 else 0)
    && (queue.current == Some(Work(w)) <==> it.running && it.queue == Some(q))
  }

  ghost predicate Placed(items: seq<Item>, queues: seq<WorkQ>) {
    forall w, q :: 0 <= w < |items| && 0 <= q < |queues| ==> Rel(w, items[w], q, queues[q])
  }

  ghost predicate FlushRel(f: nat, fl: Flush, q: nat, queue: WorkQ) {
    && Count(queue.pending, Flusher(f)) == (if fl.waiting && fl.queue == q then 1 else 0)
    && (queue.current == Some(Flusher(f)) <==> fl.running && fl.queue == q)
  }

  ghost predicate FlushPlaced(flushes: seq<Flush>, queues: seq<WorkQ>) {
    forall f, q :: 0 <= f < |flushes| && 0 <= q < |queues| ==> FlushRel(f, flushes[f], q, queues[q])
  }

  ghost predicate ItemOk(it: Item, n: nat) {
    && (it.queued || it.running ==> it.queue.Some?)
    && (it.queue.Some? ==> it.queue.value < n)
    && (it.canceling ==> it.running && !it.queued)
    && (it.linked ==> it.delayed)
    && (it.delayed ==> it.delayable)
    && it.runs <= it.submits
    && (it.queued && it.running ==> it.runs < it.submits)
  }

  ghost predicate ItemsOk(items: seq<Item>, n: nat) {
    forall w :: 0 <= w < |items| ==> ItemOk(items[w], n)
  }

  /** The thread sleeps only with nothing pending and no drain asked for; a drain waiter means that a drain is going on. */
  ghost predicate QueueOk(queue: WorkQ) {
    && (queue.busy <==> queue.current.Some?)
    && (queue.asleep ==> queue.pending == [] && !queue.drain && queue.current.None?)
    && (queue.drainers != [] ==> queue.drain)
    && (!queue.started ==> queue.pending == [] && queue.current.None? && !queue.asleep)
  }

  ghost predicate QueuesOk(queues: seq<WorkQ>) {
    forall q :: 0 <= q < |queues| ==> QueueOk(queues[q])
  }

  predicate Named(n: Node, items: nat, flushes: nat) {
    match n
    case Work(w) => w < items
    case Flusher(f) => f < flushes
  }

  ghost predicate NodesOk(queues: seq<WorkQ>, items: nat, flushes: nat) {
    forall q :: 0 <= q < |queues| ==>
      && (forall n :: n in queues[q].pending ==> Named(n, items, flushes))
      && (queues[q].current.Some? ==> Named(queues[q].current.value, items, flushes))
  }

  /** No instance of the item up to number `upto` is queued or running any more. */
  predicate Over(it: Item, upto: nat) {
    && (it.queued ==> it.submits > upto)
    && (it.running ==> it.runs > upto)
  }

  /** Whatever a waiting flusher waits for is on the flusher's own queue, and ahead of it. */
  ghost predicate Covers(it: Item, f: nat, fl: Flush, pending: seq<Node>) {
    && (it.queued && it.submits <= fl.upto ==> it.queue == Some(fl.queue) && Before(pending, Work(fl.work), Flusher(f)))
    && (it.running && it.runs <= fl.upto ==> it.queue == Some(fl.queue))
  }

  ghost predicate FlushOk(f: nat, fl: Flush, items: seq<Item>, queues: seq<WorkQ>) {
    && fl.work < |items| && fl.queue < |queues|
    && fl.upto <= items[fl.work].submits
    && (fl.waiting || fl.running || fl.given)
    && (fl.waiting ==> !fl.running && !fl.given && Covers(items[fl.work], f, fl, queues[fl.queue].pending))
    && (fl.running || fl.given ==> Over(items[fl.work], fl.upto))
  }

  ghost predicate FlushesOk(flushes: seq<Flush>, items: seq<Item>, queues: seq<WorkQ>) {
    forall f :: 0 <= f < |flushes| ==> FlushOk(f, flushes[f], items, queues)
  }

  ghost predicate CancelsOk(cancels: seq<Canceller>, items: seq<Item>) {
    forall i :: 0 <= i < |cancels| ==> cancels[i].work < |items| && items[cancels[i].work].canceling
  }

  ghost predicate Inv(s: State) {
    && ItemsOk(s.items, |s.queues|)
    && QueuesOk(s.queues)
    && NodesOk(s.queues, |s.items|, |s.flushes|)
    && Placed(s.items, s.queues)
    && FlushPlaced(s.flushes, s.queues)
    && FlushesOk(s.flushes, s.items, s.queues)
    && CancelsOk(s.cancels, s.items)
  }

  // ----- Lists -----

  lemma {:induction false} BeforeIn(list: seq<Node>, a: Node, b: Node)
    requires Before(list, a, b)
    ensures a in list && b in list
  {
    if list[0] != a {
      BeforeIn(list[1..], a, b);
    }
  }

  lemma {:induction false} BeforeInsert(list: seq<Node>, p: nat, x: Node, a: Node, b: Node)
    requires Before(list, a, b) && p <= |list| && x != b
    ensures Before(InsertAt(list, p, x), a, b)
  {
    var r := InsertAt(list, p, x);
    if p == 0 {
      assert r[1..] == list;
      BeforeIn(list, a, b);
    } else {
      assert r[0] == list[0] && r[1..] == InsertAt(list[1..], p - 1, x);
      hide InsertAt;
      if list[0] == a {
        assert b in InsertAt(list[1..], p - 1, x);
      } else {
        BeforeInsert(list[1..], p - 1, x, a, b);
      }
    }
  }

  /** Inserting right behind the only `a` puts the new node behind it. */
  lemma {:induction false} BeforeNew(list: seq<Node>, a: Node, b: Node)
    requires a in list && a != b && b !in list
    ensures Before(InsertAt(list, Find(list, a) + 1, b), a, b)
  {
    var p := Find(list, a);
    var r := InsertAt(list, p + 1, b);
    if list[0] == a {
      assert r[1..][0] == b;
    } else {
      BeforeNew(list[1..], a, b);
      assert r[1..] == InsertAt(list[1..], p, b);
    }
  }

  lemma {:induction false} BeforeSnoc(list: seq<Node>, x: Node, a: Node, b: Node)
    requires Before(list, a, b)
    ensures Before(list + [x], a, b)
  {
    assert (list + [x])[1..] == list[1..] + [x];
    if list[0] != a {
      BeforeSnoc(list[1..], x, a, b);
    }
  }

  lemma {:induction false} BeforeRemoved(list: seq<Node>, x: Node, a: Node, b: Node)
    requires Before(list, a, b) && x != a && x != b
    ensures Before(Removed(list, x), a, b)
  {
    var p := Find(list, x);
    if p < |list| {
      if p == 0 {
        assert Removed(list, x) == list[1..];
      } else {
        assert Removed(list, x)[1..] == Removed(list[1..], x);
        hide Find;
        if list[0] == a {
          assert b in list[1..] && b in Removed(list[1..], x);
        } else {
          BeforeRemoved(list[1..], x, a, b);
        }
      }
    }
  }

  // ----- Submission -----

  lemma EnqueuePlaced(s: State, w: nat, q: nat)
    requires Inv(s) && w < |s.items| && q < |s.queues|
    requires !s.items[w].queued && (s.items[w].running ==> s.items[w].queue == Some(q))
    ensures Placed(Enqueue(s, w, q).items, Enqueue(s, w, q).queues)
    ensures FlushPlaced(s.flushes, Enqueue(s, w, q).queues)
  {
    hide Count;
    var t := Enqueue(s, w, q);
    forall v, r | 0 <= v < |t.items| && 0 <= r < |t.queues| ensures Rel(v, t.items[v], r, t.queues[r]) {
      assert Rel(v, s.items[v], r, s.queues[r]);
      CountSnoc(s.queues[q].pending, Work(w), Work(v));
    }
    forall f, r | 0 <= f < |t.flushes| && 0 <= r < |t.queues| ensures FlushRel(f, t.flushes[f], r, t.queues[r]) {
      assert FlushRel(f, s.flushes[f], r, s.queues[r]);
      CountSnoc(s.queues[q].pending, Work(w), Flusher(f));
    }
  }

  lemma EnqueueInv(s: State, w: nat, q: nat)
    requires Inv(s) && w < |s.items| && q < |s.queues|
    requires !s.items[w].queued && !s.items[w].canceling && (s.items[w].running ==> s.items[w].queue == Some(q))
    requires s.queues[q].started
    ensures Inv(Enqueue(s, w, q))
  {
    hide Rel, FlushRel;
    EnqueuePlaced(s, w, q);
    var t := Enqueue(s, w, q);
    forall f | 0 <= f < |t.flushes| ensures FlushOk(f, t.flushes[f], t.items, t.queues) {
      var fl := s.flushes[f];
      assert FlushOk(f, fl, s.items, s.queues);
      var pending := s.queues[fl.queue].pending;
      if Before(pending, Work(fl.work), Flusher(f)) {
        BeforeSnoc(pending, Work(w), Work(fl.work), Flusher(f));
      }
    }
  }

  lemma SubmitInv(s: State, w: nat, target: Option<nat>, caller: Option<nat>)
    requires Inv(s) && w < |s.items|
    ensures Inv(Submit(s, w, target, caller))
  {
    hide Placed, FlushPlaced, FlushesOk, CancelsOk, NodesOk, QueuesOk;
    if SubmitCode(s, w, target, caller) > 0 {
      assert ItemOk(s.items[w], |s.queues|);
      EnqueueInv(s, w, Target(s.items[w], target).value);
    }
  }

  // ----- Cancel -----

  lemma DequeuePlaced(s: State, w: nat)
    requires Inv(s) && w < |s.items| && s.items[w].queued
    ensures Placed(Dequeue(s, w).items, Dequeue(s, w).queues)
    ensures FlushPlaced(s.flushes, Dequeue(s, w).queues)
  {
    hide Count, Removed;
    var t := Dequeue(s, w);
    assert ItemOk(s.items[w], |s.queues|);
    var q := s.items[w].queue.value;
    forall v, r | 0 <= v < |t.items| && 0 <= r < |t.queues| ensures Rel(v, t.items[v], r, t.queues[r]) {
      assert Rel(v, s.items[v], r, s.queues[r]);
      CountIn(s.queues[q].pending, Work(w));
      CountRemoved(s.queues[q].pending, Work(w), Work(v));
    }
    forall f, r | 0 <= f < |t.flushes| && 0 <= r < |t.queues| ensures FlushRel(f, t.flushes[f], r, t.queues[r]) {
      assert FlushRel(f, s.flushes[f], r, s.queues[r]);
      CountRemoved(s.queues[q].pending, Work(w), Flusher(f));
    }
  }

  lemma DequeueFlushes(s: State, w: nat)
    requires Inv(s) && w < |s.items|
    ensures FlushesOk(s.flushes, Dequeue(s, w).items, Dequeue(s, w).queues)
  {
    hide Rel, FlushRel, Removed;
    var t := Dequeue(s, w);
    forall f | 0 <= f < |t.flushes| ensures FlushOk(f, t.flushes[f], t.items, t.queues) {
      var fl := s.flushes[f];
      assert FlushOk(f, fl, s.items, s.queues);
      var pending := s.queues[fl.queue].pending;
      if fl.work != w && Before(pending, Work(fl.work), Flusher(f)) {
        BeforeRemoved(pending, Work(w), Work(fl.work), Flusher(f));
      }
    }
  }

  lemma DequeueInv(s: State, w: nat)
    requires Inv(s) && w < |s.items|
    ensures Inv(Dequeue(s, w))
  {
    if s.items[w].queued {
      DequeuePlaced(s, w);
      DequeueFlushes(s, w);
      assert s.queues[s.items[w].queue.value].pending != [] by {
        assert ItemOk(s.items[w], |s.queues|);
        assert Rel(w, s.items[w], s.items[w].queue.value, s.queues[s.items[w].queue.value]);
      }
      hide Placed, FlushPlaced, FlushesOk, Removed;
      var t := Dequeue(s, w);
      assert ItemOk(s.items[w], |s.queues|);
      var q := s.items[w].queue.value;
      forall n | n in t.queues[q].pending ensures n in s.queues[q].pending {
        RemovedIn(s.queues[q].pending, Work(w), n);
      }
      assert QueueOk(s.queues[q]);
      assert QueueOk(t.queues[q]);
    }
  }

  /** Flags that say nothing about where the item is can change freely. */
  lemma FlagsInv(s: State, w: nat, it: Item)
    requires Inv(s) && w < |s.items| && ItemOk(it, |s.queues|)
    requires it.running == s.items[w].running && it.queued == s.items[w].queued && it.queue == s.items[w].queue
    requires it.submits == s.items[w].submits && it.runs == s.items[w].runs
    requires s.items[w].canceling ==> it.canceling
    ensures Inv(s.(items := s.items[w := it]))
  {
  }

  lemma CancelAsyncInv(s: State, w: nat)
    requires Inv(s) && w < |s.items| && !s.items[w].delayed
    ensures Inv(CancelAsync(s, w))
  {
    hide Placed, FlushPlaced, FlushesOk, CancelsOk, NodesOk, QueuesOk, Removed;
    DequeueInv(s, w);
    var t := if s.items[w].canceling then s else Dequeue(s, w);
    assert ItemOk(s.items[w], |s.queues|);
    assert ItemOk(t.items[w], |t.queues|);
    if Busy(t.items[w]) != 0 {
      FlagsInv(t, w, t.items[w].(canceling := true));
    }
  }

  lemma AwaitInv(s: State, w: nat)
    requires Inv(s) && w < |s.items|
    ensures Inv(Await(s, w))
  {
  }

  lemma UnscheduleInv(s: State, w: nat)
    requires Inv(s) && w < |s.items|
    ensures Inv(Unschedule(s, w)) && !Unschedule(s, w).items[w].delayed
  {
  }

  lemma ScheduleForInv(s: State, w: nat, target: Option<nat>, delay: Delay, caller: Option<nat>)
    requires Inv(s) && w < |s.items| && s.items[w].delayable
    ensures Inv(ScheduleFor(s, w, target, delay, caller))
  {
    hide Placed, FlushPlaced, FlushesOk, NodesOk, QueuesOk, CancelsOk;
    SubmitInv(s, w, target, caller);
    assert ItemOk(s.items[w], |s.queues|);
    FlagsInv(s, w, s.items[w].(delayed := true, delayQueue := target, linked := s.items[w].linked || delay.After?));
  }

  // ----- Flush -----

  lemma AddFlusherPlaced(s: State, w: nat, q: nat)
    requires Inv(s) && w < |s.items| && q < |s.queues|
    ensures var t := AddFlusher(s, w, q); Placed(t.items, t.queues) && FlushPlaced(t.flushes, t.queues)
  {
    hide Count, Find;
    var t := AddFlusher(s, w, q);
    var list := s.queues[q].pending;
    var p := Find(list, Work(w));
    var at := if p < |list| then p + 1 else 0;
    var g := |s.flushes|;
    forall v, r | 0 <= v < |t.items| && 0 <= r < |t.queues| ensures Rel(v, t.items[v], r, t.queues[r]) {
      assert Rel(v, s.items[v], r, s.queues[r]);
      CountInsert(list, at, Flusher(g), Work(v));
    }
    forall f, r | 0 <= f < |t.flushes| && 0 <= r < |t.queues| ensures FlushRel(f, t.flushes[f], r, t.queues[r]) {
      CountInsert(list, at, Flusher(g), Flusher(f));
      if f < g {
        assert FlushRel(f, s.flushes[f], r, s.queues[r]);
      } else {
        assert !Named(Flusher(g), |s.items|, |s.flushes|);
        CountIn(s.queues[r].pending, Flusher(g));
      }
    }
  }

  lemma AddFlusherOrder(s: State, w: nat, q: nat)
    requires Inv(s) && w < |s.items| && q < |s.queues| && s.items[w].queue == Some(q)
    ensures var t := AddFlusher(s, w, q); FlushesOk(t.flushes, t.items, t.queues)
  {
    hide FlushRel, Count;
    var t := AddFlusher(s, w, q);
    var list := s.queues[q].pending;
    var p := Find(list, Work(w));
    var g := |s.flushes|;
    forall f | 0 <= f < |t.flushes| ensures FlushOk(f, t.flushes[f], t.items, t.queues) {
      if f < g {
        var fl := s.flushes[f];
        assert FlushOk(f, fl, s.items, s.queues);
        if fl.queue == q && Before(list, Work(fl.work), Flusher(f)) {
          BeforeInsert(list, if p < |list| then p + 1 else 0, Flusher(g), Work(fl.work), Flusher(f));
        }
      } else if s.items[w].queued {
        assert Rel(w, s.items[w], q, s.queues[q]);
        CountIn(list, Work(w));
        assert !Named(Flusher(g), |s.items|, |s.flushes|);
        BeforeNew(list, Work(w), Flusher(g));
      }
    }
  }

  lemma AddFlusherInv(s: State, w: nat, q: nat)
    requires Inv(s) && w < |s.items| && q < |s.queues| && s.items[w].queue == Some(q) && NeedsFlush(s.items[w])
    ensures Inv(AddFlusher(s, w, q))
  {
    AddFlusherPlaced(s, w, q);
    AddFlusherOrder(s, w, q);
    assert s.queues[q].started by {
      assert Rel(w, s.items[w], q, s.queues[q]);
      assert QueueOk(s.queues[q]);
    }
    hide Placed, FlushPlaced, FlushesOk, CancelsOk, ItemsOk, Find;
    var list := s.queues[q].pending;
    var p := Find(list, Work(w));
    InsertIn(list, if p < |list| then p + 1 else 0, Flusher(|s.flushes|));
  }

  lemma FlushWorkInv(s: State, w: nat)
    requires Inv(s) && w < |s.items|
    ensures Inv(FlushWork(s, w))
  {
    hide Placed, FlushPlaced, FlushesOk, NodesOk, QueuesOk, CancelsOk, Find;
    assert ItemOk(s.items[w], |s.queues|);
    if NeedsFlush(s.items[w]) {
      AddFlusherInv(s, w, s.items[w].queue.value);
    }
  }

  // ----- The thread of a queue -----

  lemma TakeWorkPlaced(s: State, q: nat)
    requires Inv(s) && q < |s.queues| && s.queues[q].pending != [] && s.queues[q].current.None? && s.queues[q].pending[0].Work?
    ensures var t := Take(s, q); Placed(t.items, t.queues) && FlushPlaced(t.flushes, t.queues)
  {
  }

  lemma TakeWorkFlushes(s: State, q: nat)
    requires Inv(s) && q < |s.queues| && s.queues[q].pending != [] && s.queues[q].current.None? && s.queues[q].pending[0].Work?
    ensures var t := Take(s, q); FlushesOk(t.flushes, t.items, t.queues)
  {
  }

  lemma TakeWorkInv(s: State, q: nat)
    requires Inv(s) && q < |s.queues| && s.queues[q].pending != [] && s.queues[q].current.None? && s.queues[q].pending[0].Work?
    requires s.queues[q].started && !s.queues[q].asleep
    ensures Inv(Take(s, q))
  {
    TakeWorkPlaced(s, q);
    TakeWorkFlushes(s, q);
    var list := s.queues[q].pending;
    var w := list[0].w;
    assert Named(list[0], |s.items|, |s.flushes|);
    assert s.items[w].queued && s.items[w].queue == Some(q) by {
      CountIn(list, Work(w));
      assert Rel(w, s.items[w], q, s.queues[q]);
    }
    hide Placed, FlushPlaced, FlushesOk;
    assert ItemOk(s.items[w], |s.queues|);
    assert QueueOk(s.queues[q]);
  }

  lemma TakeFlusherPlaced(s: State, q: nat)
    requires Inv(s) && q < |s.queues| && s.queues[q].pending != [] && s.queues[q].current.None? && s.queues[q].pending[0].Flusher?
    ensures var t := Take(s, q); Placed(t.items, t.queues) && FlushPlaced(t.flushes, t.queues)
  {
  }

  /** A flusher reaches the head of the list only when all that it waits for is over. */
  lemma TakeFlusherOver(s: State, q: nat)
    requires Inv(s) && q < |s.queues| && s.queues[q].pending != [] && s.queues[q].current.None? && s.queues[q].pending[0].Flusher?
    ensures var t := Take(s, q); FlushesOk(t.flushes, t.items, t.queues)
  {
  }

  lemma TakeFlusherInv(s: State, q: nat)
    requires Inv(s) && q < |s.queues| && s.queues[q].pending != [] && s.queues[q].current.None? && s.queues[q].pending[0].Flusher?
    requires s.queues[q].started && !s.queues[q].asleep
    ensures Inv(Take(s, q))
  {
    TakeFlusherPlaced(s, q);
    TakeFlusherOver(s, q);
    hide Placed, FlushPlaced, FlushesOk, ItemsOk, CancelsOk;
    assert QueueOk(s.queues[q]);
    assert Named(s.queues[q].pending[0], |s.items|, |s.flushes|);
  }

  /** Only the flags of a queue change. */
  lemma QueueFlagsInv(s: State, q: nat, queue: WorkQ)
    requires Inv(s) && q < |s.queues| && QueueOk(queue)
    requires queue.pending == s.queues[q].pending && queue.current == s.queues[q].current
    ensures Inv(s.(queues := s.queues[q := queue]))
  {
  }

  lemma LookInv(s: State, q: nat)
    requires Inv(s) && q < |s.queues|
    ensures Inv(Look(s, q))
  {
    hide Placed, FlushPlaced, FlushesOk, ItemsOk, NodesOk, CancelsOk, Take;
    var queue := s.queues[q];
    assert QueueOk(queue);
    if queue.started && !queue.asleep && queue.current.None? {
      if queue.pending == [] {
        QueueFlagsInv(s, q, Rest(queue));
      } else if queue.pending[0].Work? {
        TakeWorkInv(s, q);
      } else {
        TakeFlusherInv(s, q);
      }
    }
  }

  lemma HandleInv(s: State, q: nat)
    requires Inv(s) && q < |s.queues|
    ensures Inv(Handle(s, q))
  {
  }

  lemma {:induction false} WithoutOnly(cs: seq<Canceller>, w: nat)
    ensures forall c :: c in Without(cs, w) <==> c in cs && c.work != w
  {
    if cs != [] {
      WithoutOnly(cs[1..], w);
      assert cs == [cs[0]] + cs[1..];
    }
  }

  lemma EndWorkPlaced(s: State, q: nat, w: nat)
    requires Inv(s) && q < |s.queues| && s.queues[q].current == Some(Work(w)) && w < |s.items|
    ensures var t := End(s, q); Placed(t.items, t.queues) && FlushPlaced(t.flushes, t.queues)
  {
  }

  lemma EndWorkInv(s: State, q: nat, w: nat)
    requires Inv(s) && q < |s.queues| && s.queues[q].current == Some(Work(w)) && w < |s.items|
    ensures Inv(End(s, q))
  {
    EndWorkPlaced(s, q, w);
    hide Placed, FlushPlaced, Without, IdsFor, Before;
    var t := End(s, q);
    assert ItemOk(s.items[w], |s.queues|);
    assert QueueOk(s.queues[q]);
    forall f | 0 <= f < |t.flushes| ensures FlushOk(f, t.flushes[f], t.items, t.queues) {
      assert FlushOk(f, s.flushes[f], s.items, s.queues);
    }
    WithoutOnly(s.cancels, w);
    forall i | 0 <= i < |t.cancels| ensures t.cancels[i].work < |t.items| && t.items[t.cancels[i].work].canceling {
      assert t.cancels[i] in t.cancels;
    }
  }

  lemma EndFlusherInv(s: State, q: nat, g: nat)
    requires Inv(s) && q < |s.queues| && s.queues[q].current == Some(Flusher(g)) && g < |s.flushes| && s.flushes[g].given
    ensures Inv(End(s, q))
  {
  }

  lemma EndInv(s: State, q: nat)
    requires Inv(s) && q < |s.queues|
    ensures Inv(End(s, q))
  {
    hide Placed, FlushPlaced, FlushesOk, ItemsOk, QueuesOk, NodesOk, CancelsOk, Release, Stopped;
    match s.queues[q].current
    case None =>
    case Some(Work(w)) =>
      if w < |s.items| {
        EndWorkInv(s, q, w);
      }
    case Some(Flusher(f)) =>
      if f < |s.flushes| && s.flushes[f].given {
        EndFlusherInv(s, q, f);
      }
  }

  lemma QueueOpsInv(s: State, q: nat, plug: bool, thread: nat)
    requires Inv(s) && q < |s.queues|
    ensures Inv(Start(s, q)) && Inv(Drain(s, q, plug, thread)) && Inv(Unplug(s, q))
  {
    hide Placed, FlushPlaced, FlushesOk, ItemsOk, NodesOk, CancelsOk;
    var queue := s.queues[q];
    assert QueueOk(queue);
    if !queue.started {
      QueueFlagsInv(s, q, WorkQ(true, false, false, false, false, [], None, []));
    }
    if DrainWaits(queue, plug) {
      QueueFlagsInv(s, q, queue.(
        drain := true, plugged := queue.plugged || plug, asleep := false, drainers := queue.drainers + [thread]));
    }
    QueueFlagsInv(s, q, queue.(plugged := false));
  }

  // ----- Runs -----

  lemma CancelAsyncSize(s: State, w: nat)
    requires w < |s.items|
    ensures |CancelAsync(s, w).items| == |s.items| && CancelAsync(s, w).cancelIds == s.cancelIds
  {
  }

  lemma PlainStepInv(s: State, step: Step)
    requires Inv(s) && Enabled(s, step)
    requires step.DoSubmit? || step.DoFlush? || step.DoCancel? || step.DoCancelSync?
    ensures Inv(Next(s, step))
  {
    var w := step.w;
    assert ItemOk(s.items[w], |s.queues|);
    CancelAsyncSize(s, w);
    hide Inv, Submit, FlushWork, CancelAsync, Await;
    match step
    case DoSubmit(_, t, c) => SubmitInv(s, w, t, c);
    case DoFlush(_) => FlushWorkInv(s, w);
    case DoCancel(_) => CancelAsyncInv(s, w);
    case DoCancelSync(_) =>
      CancelAsyncInv(s, w);
      AwaitInv(CancelAsync(s, w), w);
  }

  lemma SubmitSize(s: State, w: nat, target: Option<nat>, caller: Option<nat>)
    requires w < |s.items|
    ensures |Submit(s, w, target, caller).items| == |s.items| && Submit(s, w, target, caller).flushes == s.flushes
  {
  }

  lemma UnscheduleKinds(s: State, w: nat)
    requires Inv(s) && w < |s.items|
    ensures var u := Unschedule(s, w);
      && |u.items| == |s.items| && |u.queues| == |s.queues| && u.items[w].delayable == s.items[w].delayable
      && (s.items[w].linked ==> s.items[w].delayed)
  {
    assert ItemOk(s.items[w], |s.queues|);
    hide Inv;
  }

  lemma DelayableStepInv(s: State, step: Step)
    requires Inv(s) && Enabled(s, step)
    requires step.DoSchedule? || step.DoReschedule? || step.DoExpire? || step.DoCancelDelayable? || step.DoCancelDelayableSync?
      || step.DoFlushDelayable?
    ensures Inv(Next(s, step))
  {
    hide Inv, Submit, FlushWork, CancelAsync, Await, ScheduleFor, Unschedule;
    var w := step.w;
    UnscheduleInv(s, w);
    var u := Unschedule(s, w);
    UnscheduleKinds(s, w);
    CancelAsyncSize(u, w);
    match step
    case DoSchedule(_, t, d, c) => ScheduleForInv(s, w, t, d, c);
    case DoReschedule(_, t, d, c) => ScheduleForInv(u, w, t, d, c);
    case DoExpire(_) => SubmitInv(u, w, s.items[w].delayQueue, None);
    case DoCancelDelayable(_) => CancelAsyncInv(u, w);
    case DoCancelDelayableSync(_) =>
      CancelAsyncInv(u, w);
      AwaitInv(CancelAsync(u, w), w);
    case DoFlushDelayable(_, c) =>
      SubmitInv(u, w, s.items[w].delayQueue, c);
      SubmitSize(u, w, s.items[w].delayQueue, c);
      FlushWorkInv(Submit(u, w, s.items[w].delayQueue, c), w);
      FlushWorkInv(s, w);
  }

  lemma NextInv(s: State, step: Step)
    requires Inv(s)
    ensures Inv(Next(s, step))
  {
    if Enabled(s, step) {
      hide Inv, Submit, FlushWork, CancelAsync, CancelSync, Schedule, Reschedule, Expire, CancelDelayable, CancelDelayableSync;
      hide FlushDelayable, Look, Handle, End, Start, Drain, Unplug;
      match step
      case DoSubmit(_, _, _) => PlainStepInv(s, step);
      case DoFlush(_) => PlainStepInv(s, step);
      case DoCancel(_) => PlainStepInv(s, step);
      case DoCancelSync(_) => PlainStepInv(s, step);
      case DoLook(q) => LookInv(s, q);
      case DoHandle(q) => HandleInv(s, q);
      case DoEnd(q) => EndInv(s, q);
      case DoStart(q) => QueueOpsInv(s, q, false, 0);
      case DoDrain(q, plug, thread) => QueueOpsInv(s, q, plug, thread);
      case DoUnplug(q) => QueueOpsInv(s, q, false, 0);
      case _ => DelayableStepInv(s, step);
    }
  }

  lemma {:induction false} RunInv(s: State, steps: seq<Step>)
    requires Inv(s)
    ensures Inv(Run(s, steps))
    decreases |steps|
  {
    hide Inv, Next;
    if steps != [] {
      NextInv(s, steps[0]);
      RunInv(Next(s, steps[0]), steps[1..]);
    }
  }

  lemma InitialInv(s: State)
    requires Initial(s)
    ensures Inv(s)
  {
  }
}
