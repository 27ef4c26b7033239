/**
 What kernel/work.c keeps in memory: flag words, one link for every work item, flusher and canceller, and the heads of the
 lists.  The class performs the flag and list operations of the kernel and keeps beside them the state that they stand for.
 */
module WorkMemory {
  import opened Lists
  import opened Words
  import opened SingleLists
  import opened WorkModel

  const RUNNING := 0
  const CANCELING := 1
  const QUEUED := 2
  const DELAYED := 3
  const DELAYABLE := 8
  const STARTED := 0
  const BUSY := 1
  const DRAIN := 2
  const PLUGGED := 3

  /** A work item; the last two fields are those of delayable work. */
  datatype WorkRecord = WorkRecord(flags: nat, queue: Option<nat>, delayQueue: Option<nat>, linked: bool)

  /** A queue; its thread may wait on notifyq, and others on drainq. */
  datatype QueueRecord = QueueRecord(flags: nat, pending: SList<Node>, asleep: bool, drainers: seq<nat>)

  /** A flusher is a work item with a semaphore. */
  datatype FlusherRecord = FlusherRecord(flags: nat, given: bool)

  datatype CancelRecord = CancelRecord(work: nat, given: bool)

  // ----- What the memory stands for -----

  ghost predicate WorkRep(r: WorkRecord, it: Item) {
    && Bit(r.flags, RUNNING) == it.running && Bit(r.flags, CANCELING) == it.canceling
    && Bit(r.flags, QUEUED) == it.queued && Bit(r.flags, DELAYED) == it.delayed && Bit(r.flags, DELAYABLE) == it.delayable
    && r.queue == it.queue && r.delayQueue == it.delayQueue && r.linked == it.linked
  }

  ghost predicate WorksRep(works: seq<WorkRecord>, items: seq<Item>) {
    |works| == |items| && forall w :: 0 <= w < |works| ==> WorkRep(works[w], items[w])
  }

  ghost predicate QueueRep(r: QueueRecord, queue: WorkQ) {
    && Bit(r.flags, STARTED) == queue.started && Bit(r.flags, BUSY) == queue.busy
    && Bit(r.flags, DRAIN) == queue.drain && Bit(r.flags, PLUGGED) == queue.plugged
    && r.asleep == queue.asleep && r.drainers == queue.drainers
  }

  ghost predicate QueuesRep(records: seq<QueueRecord>, queues: seq<WorkQ>) {
    |records| == |queues| && forall q :: 0 <= q < |records| ==> QueueRep(records[q], queues[q])
  }

  /** No node is on two lists. */
  ghost predicate Apart(queues: seq<WorkQ>) {
    forall q, r, i, j :: 0 <= q < r < |queues| && 0 <= i < |queues[q].pending| && 0 <= j < |queues[r].pending| ==>
      queues[q].pending[i] != queues[r].pending[j]
  }

  ghost predicate ListsRep(next: map<Node, Option<Node>>, records: seq<QueueRecord>, queues: seq<WorkQ>) {
    && |records| == |queues| && Apart(queues)
    && forall q :: 0 <= q < |records| ==> Linked(next, records[q].pending, queues[q].pending)
  }

  ghost predicate FlushersRep(flushers: seq<FlusherRecord>, flushes: seq<Flush>) {
    && |flushers| == |flushes|
    && forall f :: 0 <= f < |flushers| ==> Bit(flushers[f].flags, RUNNING) == flushes[f].running && flushers[f].given == flushes[f].given
  }

  /** Records are numbered as they come; a record is signalled by its semaphore. */
  ghost predicate CancelsRep(next: map<nat, Option<nat>>, list: SList<nat>, records: seq<CancelRecord>,
                             cancels: seq<Canceller>, signalled: seq<nat>, count: nat) {
    && |records| == count && Linked(next, list, Ids(cancels))
    && (forall i :: 0 <= i < |cancels| ==> cancels[i].id < |records| && records[cancels[i].id].work == cancels[i].work)
    && (forall id :: 0 <= id < |records| ==> (records[id].given <==> id in signalled))
    && (forall i :: 0 <= i < |signalled| ==> signalled[i] < |records|)
  }

  /** `n` is on no list. */
  ghost predicate Free(queues: seq<WorkQ>, n: Node) { forall q :: 0 <= q < |queues| ==> n !in queues[q].pending }

  // ----- One record changed -----

  function WithItem(s: State, w: nat, it: Item): (u: State)
    requires w < |s.items|
    ensures |u.items| == |s.items| && u.items[w] == it && u.queues == s.queues && u.flushes == s.flushes
  {
    s.(items := s.items[w := it])
  }

  function WithQueue(s: State, q: nat, queue: WorkQ): (u: State)
    requires q < |s.queues|
    ensures |u.queues| == |s.queues| && u.queues[q] == queue && u.items == s.items && u.flushes == s.flushes
  {
    s.(queues := s.queues[q := queue])
  }

  function WithFlush(s: State, f: nat, fl: Flush): (u: State)
    requires f < |s.flushes|
    ensures |u.flushes| == |s.flushes| && u.flushes[f] == fl && u.items == s.items && u.queues == s.queues
  {
    s.(flushes := s.flushes[f := fl])
  }

  /** Changing a record twice is changing it once. */
  lemma Folds(s: State)
    ensures forall w: nat, a, b :: w < |s.items| ==> WithItem(WithItem(s, w, a), w, b) == WithItem(s, w, b)
    ensures forall q: nat, a, b :: q < |s.queues| ==> WithQueue(WithQueue(s, q, a), q, b) == WithQueue(s, q, b)
    ensures forall f: nat, a, b :: f < |s.flushes| ==> WithFlush(WithFlush(s, f, a), f, b) == WithFlush(s, f, b)
  {
  }

  // ----- Flags -----

  predicate FlagOf(it: Item, bit: nat) {
    if bit == RUNNING then it.running else if bit == CANCELING then it.canceling
    else if bit == QUEUED then it.queued else if bit == DELAYED then it.delayed else it.delayable
  }

  function WithFlag(it: Item, bit: nat, b: bool): Item {
    if bit == RUNNING then it.(running := b) else if bit == CANCELING then it.(canceling := b)
    else if bit == QUEUED then it.(queued := b) else if bit == DELAYED then it.(delayed := b) else it
  }

  predicate QueueFlagOf(queue: WorkQ, bit: nat) {
    if bit == STARTED then queue.started else if bit == BUSY then queue.busy
    else if bit == DRAIN then queue.drain else queue.plugged
  }

  function WithQueueFlag(queue: WorkQ, bit: nat, b: bool): WorkQ {
    if bit == STARTED then queue.(started := b) else if bit == BUSY then queue.(busy := b)
    else if bit == DRAIN then queue.(drain := b) else queue.(plugged := b)
  }

  lemma QueueFlagRep(r: QueueRecord, queue: WorkQ, bit: nat, b: bool)
    requires QueueRep(r, queue) && bit < 4
    ensures QueueRep(r.(flags := Put(r.flags, bit, b)), WithQueueFlag(queue, bit, b))
  {
    hide Bit, Put;
  }

  // ----- Lists -----

  lemma NotHere(queues: seq<WorkQ>, p: nat, i: nat, q: nat)
    requires Apart(queues) && p < |queues| && i < |queues[p].pending| && q < |queues| && p != q
    ensures queues[p].pending[i] !in queues[q].pending && !Free(queues, queues[p].pending[i])
  {
    var n := queues[p].pending[i];
    assert n in queues[p].pending;
    forall j | 0 <= j < |queues[q].pending| ensures queues[q].pending[j] != n {
    }
  }

  lemma ApartChanged(queues: seq<WorkQ>, q: nat, queue: WorkQ)
    requires Apart(queues) && q < |queues|
    requires forall p :: 0 <= p < |queues| && p != q ==>
      forall i :: 0 <= i < |queues[p].pending| ==> queues[p].pending[i] !in queue.pending
    ensures Apart(queues[q := queue])
  {
  }

  lemma ListChanged(before: map<Node, Option<Node>>, after: map<Node, Option<Node>>, touched: seq<Node>,
                    records: seq<QueueRecord>, queues: seq<WorkQ>, q: nat, r: QueueRecord, queue: WorkQ)
    requires ListsRep(before, records, queues) && q < |queues| && Beside(before, after, touched)
    requires Linked(after, r.pending, queue.pending)
    requires forall n :: n in touched || n in queue.pending ==> n in queues[q].pending || Free(queues, n)
    ensures ListsRep(after, records[q := r], queues[q := queue])
  {
    forall p | 0 <= p < |queues| && p != q
      ensures forall i :: 0 <= i < |queues[p].pending| ==> queues[p].pending[i] !in touched && queues[p].pending[i] !in queue.pending
    {
      forall i | 0 <= i < |queues[p].pending|
        ensures queues[p].pending[i] !in touched && queues[p].pending[i] !in queue.pending
      {
        NotHere(queues, p, i, q);
      }
    }
    forall p | 0 <= p < |queues| && p != q ensures Linked(after, records[p].pending, queues[p].pending) {
      hide Apart;
      Untouched(before, after, touched, records[p].pending, queues[p].pending);
    }
    ApartChanged(queues, q, queue);
  }

  lemma SameLists(next: map<Node, Option<Node>>, records: seq<QueueRecord>, queues: seq<WorkQ>, q: nat, r: QueueRecord, queue: WorkQ)
    requires ListsRep(next, records, queues) && q < |queues| && r.pending == records[q].pending && queue.pending == queues[q].pending
    ensures ListsRep(next, records[q := r], queues[q := queue])
  {
  }

  // ----- Pending cancellations -----

  /** Half way along the list: `kept` behind, `rest` ahead, and the records of `ids` signalled. */
  ghost predicate Walking(start: State, s: State, kept: seq<Canceller>, rest: seq<Canceller>, ids: seq<nat>, w: nat) {
    && s == start.(cancels := kept + rest, signalled := start.signalled + ids)
    && kept + Without(rest, w) == Without(start.cancels, w)
    && ids + IdsFor(rest, w) == IdsFor(start.cancels, w)
  }

  lemma WalkAt(kept: seq<Canceller>, rest: seq<Canceller>)
    requires rest != []
    ensures (kept + rest)[|kept|] == rest[0] && At(Ids(rest), 0) == Some(rest[0].id)
    ensures At(Ids(kept + rest), |kept| + 1) == At(Ids(rest[1..]), 0)
    ensures At(Ids(kept + rest), |kept| - 1) == At(Ids(kept), |kept| - 1)
    ensures At(Ids(kept + [rest[0]]), |kept|) == Some(rest[0].id)
  {
  }

  lemma WalkSignal(start: State, s: State, kept: seq<Canceller>, rest: seq<Canceller>, ids: seq<nat>, w: nat)
    requires Walking(start, s, kept, rest, ids, w) && rest != [] && rest[0].work == w
    ensures |kept| < |s.cancels| && RemoveAt(s.cancels, |kept|) == kept + rest[1..]
    ensures Walking(start, s.(cancels := RemoveAt(s.cancels, |kept|), signalled := s.signalled + [rest[0].id]),
                    kept, rest[1..], ids + [rest[0].id], w)
  {
    var id := rest[0].id;
    assert RemoveAt(kept + rest, |kept|) == kept + rest[1..];
    Associative(start.signalled, ids, [id]);
    Associative(ids, [id], IdsFor(rest[1..], w));
  }

  lemma WalkKeep(start: State, s: State, kept: seq<Canceller>, rest: seq<Canceller>, ids: seq<nat>, w: nat)
    requires Walking(start, s, kept, rest, ids, w) && rest != [] && rest[0].work != w
    ensures Walking(start, s, kept + [rest[0]], rest[1..], ids, w) && s.cancels == (kept + [rest[0]]) + rest[1..]
  {
    Associative(kept, [rest[0]], rest[1..]);
    assert [rest[0]] + rest[1..] == rest;
    Associative(kept, [rest[0]], Without(rest[1..], w));
  }

  lemma WalkEnd(start: State, s: State, kept: seq<Canceller>, rest: seq<Canceller>, ids: seq<nat>, w: nat)
    requires Walking(start, s, kept, rest, ids, w) && rest == []
    ensures s == start.(cancels := Without(start.cancels, w), signalled := start.signalled + IdsFor(start.cancels, w))
  {
    assert kept + [] == kept && ids + [] == ids;
  }

  lemma Signalled(before: map<nat, Option<nat>>, was: SList<nat>, links: map<nat, Option<nat>>, l: SList<nat>,
                  records: seq<CancelRecord>, cancels: seq<Canceller>, signalled: seq<nat>, count: nat, i: nat)
    requires CancelsRep(before, was, records, cancels, signalled, count) && i < |cancels| && cancels[i].id < |records|
    requires Linked(links, l, RemoveAt(Ids(cancels), i))
    ensures var id := cancels[i].id;
      CancelsRep(links, l, records[id := records[id].(given := true)], RemoveAt(cancels, i), signalled + [id], count)
  {
    hide Linked;
    assert RemoveAt(Ids(cancels), i) == Ids(RemoveAt(cancels, i));
  }

  // ----- The memory -----

  class Memory {
    var works: seq<WorkRecord>
    var records: seq<QueueRecord>
    var next: map<Node, Option<Node>>
    var flushers: seq<FlusherRecord>
    var cancellers: seq<CancelRecord>
    var cancelNext: map<nat, Option<nat>>
    var pendingCancels: SList<nat>
    ghost var state: State

    ghost predicate Reps()
      reads this
    {
      && WorksRep(works, state.items) && QueuesRep(records, state.queues) && ListsRep(next, records, state.queues)
      && FlushersRep(flushers, state.flushes)
      && CancelsRep(cancelNext, pendingCancels, cancellers, state.cancels, state.signalled, state.cancelIds)
    }

    constructor (delayable: seq<bool>, n: nat)
      ensures Reps() && Initial(state) && |state.items| == |delayable| && |state.queues| == n
      ensures forall w :: 0 <= w < |delayable| ==> state.items[w].delayable == delayable[w]
    {
      works := seq(|delayable|, i requires 0 <= i < |delayable| => WorkRecord(Put(0, DELAYABLE, delayable[i]), None, None, false));
      records := seq(n, _ => QueueRecord(0, SList(None, None), false, []));
      next, flushers, cancellers, cancelNext, pendingCancels := map[], [], [], map[], SList(None, None);
      state := State(
        seq(|delayable|, i requires 0 <= i < |delayable| => Item(delayable[i], false, false, false, false, None, None, false, 0, 0)),
        seq(n, _ => WorkQ(false, false, false, false, false, [], None, [])), [], [], 0, []);
      new;
      NoBits();
      hide Bit, Put;
    }

    /** The history of an item is no part of the memory. */
    ghost method NoteItem(w: nat, submits: nat, runs: nat)
      requires Reps() && w < |state.items|
      modifies this`state
      ensures Reps() && state == WithItem(old(state), w, old(state).items[w].(submits := submits, runs := runs))
    {
      hide Bit, QueuesRep, ListsRep, FlushersRep, CancelsRep;
      state := state.(items := state.items[w := state.items[w].(submits := submits, runs := runs)]);
    }

    /** Nor is what a thread is handling, which it keeps to itself. */
    ghost method NoteCurrent(q: nat, current: Option<Node>)
      requires Reps() && q < |state.queues|
      modifies this`state
      ensures Reps() && state == WithQueue(old(state), q, old(state).queues[q].(current := current))
    {
      SameLists(next, records, state.queues, q, records[q], state.queues[q].(current := current));
      assert records[q := records[q]] == records;
      hide Bit, WorksRep, ListsRep, FlushersRep, CancelsRep;
      state := state.(queues := state.queues[q := state.queues[q].(current := current)]);
    }

    ghost method NoteWaiting(f: nat, waiting: bool)
      requires Reps() && f < |state.flushes|
      modifies this`state
      ensures Reps() && state == WithFlush(old(state), f, old(state).flushes[f].(waiting := waiting))
    {
      hide Bit, WorksRep, QueuesRep, ListsRep, CancelsRep;
      state := state.(flushes := state.flushes[f := state.flushes[f].(waiting := waiting)]);
    }

    // ----- Work items -----

    predicate Flag(w: nat, bit: nat)
      requires Reps() && w < |state.items| && (bit < 4 || bit == DELAYABLE)
      reads this
      ensures Flag(w, bit) == FlagOf(state.items[w], bit)
    {
      Bit(works[w].flags, bit)
    }

    method SetFlag(w: nat, bit: nat, b: bool)
      requires Reps() && w < |state.items| && bit < 4
      modifies this`works, this`state
      ensures Reps() && state == WithItem(old(state), w, WithFlag(old(state).items[w], bit, b))
    {
      hide Bit, QueuesRep, ListsRep, FlushersRep, CancelsRep;
      works := works[w := works[w].(flags := Put(works[w].flags, bit, b))];
      state := state.(items := state.items[w := WithFlag(state.items[w], bit, b)]);
    }

    /** Clear a flag and say whether it was set. */
    method TestAndClear(w: nat, bit: nat) returns (was: bool)
      requires Reps() && w < |state.items| && bit < 4
      modifies this`works, this`state
      ensures Reps() && state == WithItem(old(state), w, WithFlag(old(state).items[w], bit, false))
      ensures was == FlagOf(old(state).items[w], bit)
    {
      was := Flag(w, bit);
      SetFlag(w, bit, false);
    }

    /** The busy mask. */
    function BusyGet(w: nat): (m: int)
      requires Reps() && w < |state.items|
      reads this
      ensures m == Busy(state.items[w])
    {
      LowFour(works[w].flags);
      works[w].flags % 16
    }

    function QueueOf(w: nat): (q: Option<nat>)
      requires Reps() && w < |state.items|
      reads this
      ensures q == state.items[w].queue
    {
      works[w].queue
    }

    function DelayQueueOf(w: nat): (q: Option<nat>)
      requires Reps() && w < |state.items|
      reads this
      ensures q == state.items[w].delayQueue
    {
      works[w].delayQueue
    }

    method SetQueue(w: nat, q: Option<nat>)
      requires Reps() && w < |state.items|
      modifies this`works, this`state
      ensures Reps() && state == WithItem(old(state), w, old(state).items[w].(queue := q))
    {
      hide Bit, QueuesRep, ListsRep, FlushersRep, CancelsRep;
      works := works[w := works[w].(queue := q)];
      state := state.(items := state.items[w := state.items[w].(queue := q)]);
    }

    /** Where the item goes on expiry, and whether its timeout is linked. */
    method SetDelay(w: nat, q: Option<nat>, linked: bool)
      requires Reps() && w < |state.items|
      modifies this`works, this`state
      ensures Reps() && state == WithItem(old(state), w, old(state).items[w].(delayQueue := q, linked := linked))
    {
      hide Bit, QueuesRep, ListsRep, FlushersRep, CancelsRep;
      works := works[w := works[w].(delayQueue := q, linked := linked)];
      state := state.(items := state.items[w := state.items[w].(delayQueue := q, linked := linked)]);
    }

    // ----- Queues -----

    predicate QueueFlag(q: nat, bit: nat)
      requires Reps() && q < |state.queues| && bit < 4
      reads this
      ensures QueueFlag(q, bit) == QueueFlagOf(state.queues[q], bit)
    {
      Bit(records[q].flags, bit)
    }

    method SetQueueFlag(q: nat, bit: nat, b: bool)
      requires Reps() && q < |state.queues| && bit < 4
      modifies this`records, this`state
      ensures Reps() && state == WithQueue(old(state), q, WithQueueFlag(old(state).queues[q], bit, b))
    {
      hide Bit, Put, WorksRep, ListsRep, FlushersRep, CancelsRep, QueueRep;
      var r := records[q].(flags := Put(records[q].flags, bit, b));
      ghost var queue := WithQueueFlag(state.queues[q], bit, b);
      QueueFlagRep(records[q], state.queues[q], bit, b);
      SameLists(next, records, state.queues, q, r, queue);
      records := records[q := r];
      state := state.(queues := state.queues[q := queue]);
    }

    /** Only the started flag is left. */
    method ResetFlags(q: nat)
      requires Reps() && q < |state.queues|
      modifies this`records, this`state
      ensures Reps() && state == WithQueue(old(state), q, old(state).queues[q].(
        started := true, busy := false, drain := false, plugged := false))
    {
      var r := records[q].(flags := Put(0, STARTED, true));
      ghost var queue := state.queues[q].(started := true, busy := false, drain := false, plugged := false);
      SameLists(next, records, state.queues, q, r, queue);
      NoBits();
      hide Bit, WorksRep, ListsRep, FlushersRep, CancelsRep;
      records := records[q := r];
      state := state.(queues := state.queues[q := queue]);
    }

    predicate Exists(q: Option<nat>)
      requires Reps()
      reads this
      ensures Exists(q) == (q.Some? && q.value < |state.queues|)
    {
      q.Some? && q.value < |records|
    }

    /** Whether the thread sleeps. */
    predicate Asleep(q: nat)
      requires Reps() && q < |state.queues|
      reads this
      ensures Asleep(q) == state.queues[q].asleep
    {
      records[q].asleep
    }

    method SetAsleep(q: nat, b: bool)
      requires Reps() && q < |state.queues|
      modifies this`records, this`state
      ensures Reps() && state == WithQueue(old(state), q, old(state).queues[q].(asleep := b))
    {
      var r := records[q].(asleep := b);
      SameLists(next, records, state.queues, q, r, state.queues[q].(asleep := b));
      hide Bit, WorksRep, ListsRep, FlushersRep, CancelsRep;
      records := records[q := r];
      state := state.(queues := state.queues[q := state.queues[q].(asleep := b)]);
    }

    function DrainersOf(q: nat): (r: seq<nat>)
      requires Reps() && q < |state.queues|
      reads this
      ensures r == state.queues[q].drainers
    {
      records[q].drainers
    }

    method SetDrainers(q: nat, threads: seq<nat>)
      requires Reps() && q < |state.queues|
      modifies this`records, this`state
      ensures Reps() && state == WithQueue(old(state), q, old(state).queues[q].(drainers := threads))
    {
      var r := records[q].(drainers := threads);
      SameLists(next, records, state.queues, q, r, state.queues[q].(drainers := threads));
      hide Bit, WorksRep, ListsRep, FlushersRep, CancelsRep;
      records := records[q := r];
      state := state.(queues := state.queues[q := state.queues[q].(drainers := threads)]);
    }

    predicate IsEmpty(q: nat)
      requires Reps() && q < |state.queues|
      reads this
      ensures IsEmpty(q) == (state.queues[q].pending == [])
    {
      assert Linked(next, records[q].pending, state.queues[q].pending);
      records[q].pending.head.None?
    }

    // ----- Pending lists -----

    /** Store changed links and the new ends of one list. */
    method Relink(q: nat, links: map<Node, Option<Node>>, l: SList<Node>, ghost touched: seq<Node>, ghost list: seq<Node>)
      requires Reps() && q < |state.queues| && Linked(links, l, list) && Beside(next, links, touched)
      requires forall n :: n in touched || n in list ==> n in state.queues[q].pending || Free(state.queues, n)
      modifies this`next, this`records, this`state
      ensures Reps() && state == WithQueue(old(state), q, old(state).queues[q].(pending := list))
    {
      hide Linked, Bit, Apart, Beside, Free;
      ListChanged(next, links, touched, records, state.queues, q, records[q].(pending := l), state.queues[q].(pending := list));
      hide ListsRep, WorksRep, FlushersRep, CancelsRep;
      next := links;
      records := records[q := records[q].(pending := l)];
      state := state.(queues := state.queues[q := state.queues[q].(pending := list)]);
    }

    method Append(q: nat, n: Node)
      requires Reps() && q < |state.queues| && Free(state.queues, n)
      modifies this`next, this`records, this`state
      ensures Reps() && state == WithQueue(old(state), q, old(state).queues[q].(pending := old(state).queues[q].pending + [n]))
    {
      ghost var list := state.queues[q].pending;
      assert Linked(next, records[q].pending, list);
      hide Reps, Linked, Beside;
      var links, l := SingleLists.Append(next, records[q].pending, n, list);
      Relink(q, links, l, list + [n], list + [n]);
    }

    method Prepend(q: nat, n: Node)
      requires Reps() && q < |state.queues| && Free(state.queues, n)
      modifies this`next, this`records, this`state
      ensures Reps() && state == WithQueue(old(state), q, old(state).queues[q].(pending := InsertAt(old(state).queues[q].pending, 0, n)))
    {
      ghost var list := state.queues[q].pending;
      assert Linked(next, records[q].pending, list);
      hide Reps, Linked, Beside;
      var links, l := SingleLists.Prepend(next, records[q].pending, n, list);
      assert [n] + list == InsertAt(list, 0, n);
      Relink(q, links, l, [n], [n] + list);
    }

    /** Put a node behind another one of the list. */
    method InsertBehind(q: nat, prev: Node, n: Node)
      requires Reps() && q < |state.queues| && Free(state.queues, n) && prev in state.queues[q].pending
      modifies this`next, this`records, this`state
      ensures Find(old(state).queues[q].pending, prev) < |old(state).queues[q].pending|
      ensures Reps() && state == WithQueue(old(state), q, old(state).queues[q].(
        pending := InsertAt(old(state).queues[q].pending, Find(old(state).queues[q].pending, prev) + 1, n)))
    {
      ghost var list := state.queues[q].pending;
      assert Linked(next, records[q].pending, list);
      hide Reps, Linked, Beside;
      CountIn(list, prev);
      ghost var p := Find(list, prev);
      var links, l := SingleLists.InsertAfter(next, records[q].pending, prev, n, list, p);
      InsertIn(list, p + 1, n);
      Relink(q, links, l, list + [n], InsertAt(list, p + 1, n));
    }

    method Contains(q: nat, n: Node) returns (found: bool)
      requires Reps() && q < |state.queues|
      ensures found <==> n in state.queues[q].pending
    {
      assert Linked(next, records[q].pending, state.queues[q].pending);
      found := SingleLists.Contains(next, records[q].pending, n, state.queues[q].pending);
    }

    method FindAndRemove(q: nat, n: Node)
      requires Reps() && q < |state.queues|
      modifies this`next, this`records, this`state
      ensures Reps() && state == WithQueue(old(state), q, old(state).queues[q].(pending := Removed(old(state).queues[q].pending, n)))
    {
      ghost var list := state.queues[q].pending;
      assert Linked(next, records[q].pending, list);
      hide Reps, Linked, Beside;
      var links, l, found := SingleLists.FindAndRemove(next, records[q].pending, n, list);
      Relink(q, links, l, list, Removed(list, n));
    }

    /** Take the first node off the list, if there is one. */
    method Get(q: nat) returns (n: Option<Node>)
      requires Reps() && q < |state.queues|
      modifies this`next, this`records, this`state
      ensures n == At(old(state).queues[q].pending, 0)
      ensures Reps() && state == if n.None? then old(state) else
        WithQueue(old(state), q, old(state).queues[q].(pending := old(state).queues[q].pending[1..]))
    {
      ghost var list := state.queues[q].pending;
      assert Linked(next, records[q].pending, list);
      hide Reps, Linked;
      var l;
      n, l := SingleLists.Get(next, records[q].pending, list);
      Relink(q, next, l, [], if list == [] then list else list[1..]);
      assert list == [] ==> state.queues == old(state).queues;
    }

    /** An empty list. */
    method Init(q: nat)
      requires Reps() && q < |state.queues|
      modifies this`next, this`records, this`state
      ensures Reps() && state == WithQueue(old(state), q, old(state).queues[q].(pending := []))
    {
      Relink(q, next, SList(None, None), [], []);
    }

    // ----- Flushers -----

    /** A flusher with a semaphore that has not been given. */
    method NewFlusher(ghost fl: Flush) returns (f: nat)
      requires Reps() && !fl.running && !fl.given
      modifies this`flushers, this`state
      ensures Reps() && f == |old(state).flushes| && state == old(state).(flushes := old(state).flushes + [fl])
    {
      NoBits();
      hide Bit, WorksRep, QueuesRep, ListsRep, CancelsRep;
      f := |flushers|;
      flushers := flushers + [FlusherRecord(0, false)];
      state := state.(flushes := state.flushes + [fl]);
    }

    method SetFlusherRunning(f: nat, b: bool)
      requires Reps() && f < |state.flushes|
      modifies this`flushers, this`state
      ensures Reps() && state == WithFlush(old(state), f, old(state).flushes[f].(running := b))
    {
      hide Bit, WorksRep, QueuesRep, ListsRep, CancelsRep;
      flushers := flushers[f := flushers[f].(flags := Put(Put(flushers[f].flags, RUNNING, b), QUEUED, false))];
      state := state.(flushes := state.flushes[f := state.flushes[f].(running := b)]);
    }

    method GiveFlusher(f: nat)
      requires Reps() && f < |state.flushes|
      modifies this`flushers, this`state
      ensures Reps() && state == WithFlush(old(state), f, old(state).flushes[f].(given := true))
    {
      hide Bit, WorksRep, QueuesRep, ListsRep, CancelsRep;
      flushers := flushers[f := flushers[f].(given := true)];
      state := state.(flushes := state.flushes[f := state.flushes[f].(given := true)]);
    }

    // ----- Cancellers -----

    /** A record for a thread that waits, at the end of the list of pending cancellations. */
    method AddCanceller(w: nat)
      requires Reps()
      modifies this`cancellers, this`cancelNext, this`pendingCancels, this`state
      ensures Reps() && state == old(state).(
        cancels := old(state).cancels + [Canceller(old(state).cancelIds, w)], cancelIds := old(state).cancelIds + 1)
    {
      hide Bit, WorksRep, QueuesRep, ListsRep, FlushersRep, Linked;
      var id := |cancellers|;
      ghost var ids := Ids(state.cancels);
      cancelNext, pendingCancels := SingleLists.Append(cancelNext, pendingCancels, id, ids);
      cancellers := cancellers + [CancelRecord(w, false)];
      assert ids + [id] == Ids(state.cancels + [Canceller(id, w)]);
      state := state.(cancels := state.cancels + [Canceller(id, w)], cancelIds := id + 1);
    }

    lemma CancelAt(i: nat)
      requires Reps() && i < |state.cancels|
      ensures Linked(cancelNext, pendingCancels, Ids(state.cancels)) && Ids(state.cancels)[i] == state.cancels[i].id
      ensures state.cancels[i].id < |cancellers| && cancellers[state.cancels[i].id].work == state.cancels[i].work
      ensures state.cancels[i].id in cancelNext && cancelNext[state.cancels[i].id] == At(Ids(state.cancels), i + 1)
    {
      assert Ids(state.cancels)[i] == state.cancels[i].id;
    }

    /** Unlink record number `i` of the list, given the one before it, and signal its thread. */
    method Signal(prev: Option<nat>, id: nat, ghost i: nat)
      requires Reps() && i < |state.cancels| && state.cancels[i].id == id && prev == At(Ids(state.cancels), i - 1)
      modifies this`cancellers, this`cancelNext, this`pendingCancels, this`state
      ensures Reps() && state == old(state).(
        cancels := RemoveAt(old(state).cancels, i), signalled := old(state).signalled + [id])
    {
      hide Bit, WorksRep, QueuesRep, ListsRep, FlushersRep, CancelsRep, Linked, Ids, RemoveAt, Beside;
      CancelAt(i);
      var links, l := SingleLists.Remove(cancelNext, pendingCancels, prev, id, Ids(state.cancels), i);
      Signalled(cancelNext, pendingCancels, links, l, cancellers, state.cancels, state.signalled, state.cancelIds, i);
      cancelNext, pendingCancels := links, l;
      cancellers := cancellers[id := cancellers[id].(given := true)];
      state := state.(cancels := RemoveAt(state.cancels, i), signalled := state.signalled + [id]);
    }

    lemma WalkStart(w: nat)
      requires Reps()
      ensures pendingCancels.head == At(Ids(state.cancels), 0) && Walking(state, state, [], state.cancels, [], w)
    {
      assert [] + state.cancels == state.cancels && state.signalled + [] == state.signalled;
    }

    /** Walk the list of pending cancellations; unlink and signal every record of the item. */
    method SignalAll(w: nat)
      requires Reps()
      modifies this`cancellers, this`cancelNext, this`pendingCancels, this`state
      ensures Reps() && state == old(state).(
        cancels := Without(old(state).cancels, w), signalled := old(state).signalled + IdsFor(old(state).cancels, w))
    {
      hide Reps, Linked, Without, IdsFor, Ids, RemoveAt, Walking;
      ghost var kept: seq<Canceller>, rest, ids: seq<nat> := [], state.cancels, [];
      WalkStart(w);
      var prev, wc := None, pendingCancels.head;
      while wc.Some?
        invariant Reps() && Walking(old(state), state, kept, rest, ids, w) && state.cancels == kept + rest
        invariant wc == At(Ids(rest), 0) && prev == At(Ids(kept), |kept| - 1)
        decreases |rest|
      {
        WalkAt(kept, rest);
        CancelAt(|kept|);
        var id := wc.value;
        var tmp := cancelNext[id];
        if cancellers[id].work == w {
          WalkSignal(old(state), state, kept, rest, ids, w);
          Signal(prev, id, |kept|);
          ids := ids + [id];
        } else {
          WalkKeep(old(state), state, kept, rest, ids, w);
          prev := wc;
          kept := kept + [rest[0]];
        }
        rest := rest[1..];
        wc := tmp;
      }
      WalkEnd(old(state), state, kept, rest, ids, w);
    }
  }
}
