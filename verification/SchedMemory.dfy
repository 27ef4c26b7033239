/**
 What kernel/sched.c keeps in memory: a state word for every thread, the run queue as an array of lists with a bitmask, and the
 slice counter.  The class performs the operations on them and keeps beside them the state that they stand for.
 */
module SchedMemory {
  import opened Lists
  import opened Words
  import opened SchedModel
  import opened SchedRuns
  import opened PQ = PrioQueues

  const DUMMY := 0
  const PENDING := 1
  const PRESTART := 2
  const DEAD := 3
  const SUSPENDED := 4
  const QUEUED := 7

  datatype ThreadRecord = ThreadRecord(word: nat, prio: int, pendedOn: Option<nat>, timer: bool, locked: nat, joinq: nat)

  // ----- What the memory stands for -----

  /** No other bits are used. */
  ghost predicate Narrow(m: nat) { forall i: nat :: Bit(m, i) ==> i < 5 || i == QUEUED }

  ghost predicate WordRep(word: nat, th: Thread) {
    && Bit(word, DUMMY) == th.dummy && Bit(word, PENDING) == th.pending && Bit(word, PRESTART) == th.prestart
    && Bit(word, DEAD) == th.dead && Bit(word, SUSPENDED) == th.suspended && Bit(word, QUEUED) == th.queued && Narrow(word)
  }

  ghost predicate ThreadRep(r: ThreadRecord, th: Thread) {
    && WordRep(r.word, th)
    && r.prio == th.prio && r.pendedOn == th.pendedOn && r.timer == th.timer && r.locked == th.locked && r.joinq == th.joinq
  }

  ghost predicate ThreadsRep(records: seq<ThreadRecord>, threads: seq<Thread>) {
    |records| == |threads| && forall t :: 0 <= t < |records| ==> ThreadRep(records[t], threads[t])
  }

  /** The entries of a run queue. */
  function Entries(threads: seq<Thread>, list: seq<nat>): (r: seq<Entry>)
    ensures |r| == |list| && forall i :: 0 <= i < |list| ==> r[i] == Entry(list[i], Prio(threads, list[i]))
  {
    seq(|list|, i requires 0 <= i < |list| => Entry(list[i], Prio(threads, list[i])))
  }

  /** The array of lists has a list for every priority. */
  ghost predicate InRange(threads: seq<Thread>, high: int) {
    forall t :: 0 <= t < |threads| ==> high <= threads[t].prio < high + QUEUES
  }

  // ----- State bits -----

  predicate BitOf(th: Thread, bit: nat) {
    if bit == DUMMY then th.dummy else if bit == PENDING then th.pending else if bit == PRESTART then th.prestart
    else if bit == DEAD then th.dead else if bit == SUSPENDED then th.suspended else th.queued
  }

  function WithBit(th: Thread, bit: nat, b: bool): Thread {
    if bit == PENDING then th.(pending := b) else if bit == PRESTART then th.(prestart := b)
    else if bit == DEAD then th.(dead := b) else if bit == SUSPENDED then th.(suspended := b) else th.(queued := b)
  }

  lemma PutNarrow(m: nat, bit: nat, b: bool)
    requires Narrow(m) && (bit < 5 || bit == QUEUED)
    ensures Narrow(Put(m, bit, b))
  {
  }

  lemma BitRep(word: nat, th: Thread, bit: nat, b: bool)
    requires WordRep(word, th) && (1 <= bit < 5 || bit == QUEUED)
    ensures WordRep(Put(word, bit, b), WithBit(th, bit, b))
  {
    hide Bit, Put, Narrow;
    PutNarrow(word, bit, b);
    if bit == PENDING {
    } else if bit == PRESTART {
    } else if bit == DEAD {
    } else if bit == SUSPENDED {
    } else {
    }
  }

  lemma WithBitSame(th: Thread, bit: nat, b: bool)
    ensures var u := WithBit(th, bit, b);
      u.prio == th.prio && u.pendedOn == th.pendedOn && u.timer == th.timer && u.locked == th.locked && u.joinq == th.joinq
  {
    if bit == PENDING {
    } else if bit == PRESTART {
    } else if bit == DEAD {
    } else if bit == SUSPENDED {
    } else {
    }
  }

  /** Suspended and nothing else. */
  lemma SuspendedWord(m: nat)
    requires Narrow(m)
    ensures m == 16 <==> Bit(m, SUSPENDED) && !Bit(m, DUMMY) && !Bit(m, PENDING) && !Bit(m, PRESTART) && !Bit(m, DEAD) && !Bit(m, QUEUED)
  {
    Sixteen(DUMMY);
    Sixteen(PENDING);
    Sixteen(PRESTART);
    Sixteen(DEAD);
    Sixteen(SUSPENDED);
    Sixteen(QUEUED);
    hide Bit;
    if Bit(m, SUSPENDED) && !Bit(m, DUMMY) && !Bit(m, PENDING) && !Bit(m, PRESTART) && !Bit(m, DEAD) && !Bit(m, QUEUED) {
      forall i: nat ensures Bit(m, i) <==> Bit(16, i) {
        Sixteen(i);
      }
      SameBits(m, 16);
    }
  }

  function WithThread(s: State, t: nat, th: Thread): (u: State)
    requires t < |s.threads|
    ensures |u.threads| == |s.threads| && u.threads[t] == th && u.runq == s.runq && u.waitqs == s.waitqs && u.current == s.current
  {
    s.(threads := s.threads[t := th])
  }

  // ----- The run queue -----

  lemma EntriesSame(a: seq<Thread>, b: seq<Thread>, list: seq<nat>)
    requires forall i :: 0 <= i < |list| ==> Prio(a, list[i]) == Prio(b, list[i])
    ensures Entries(a, list) == Entries(b, list)
  {
  }

  /** Adding to the run queue puts the thread where the state machine puts it. */
  lemma EntriesAdded(threads: seq<Thread>, list: seq<nat>, t: nat)
    ensures var e := Entry(t, Prio(threads, t));
      Added(Entries(threads, list), e) == Entries(threads, InsertAt(list, Rank(SchedModel.Prios(threads, list), e.prio), t))
  {
    hide Rank;
    assert PQ.Prios(Entries(threads, list)) == SchedModel.Prios(threads, list);
  }

  lemma {:induction false} EntriesFind(threads: seq<Thread>, list: seq<nat>, t: nat)
    ensures Find(Entries(threads, list), Entry(t, Prio(threads, t))) == Find(list, t)
  {
    if list != [] {
      EntriesFind(threads, list[1..], t);
      assert Entries(threads, list)[1..] == Entries(threads, list[1..]);
    }
  }

  lemma EntriesRemoved(threads: seq<Thread>, list: seq<nat>, t: nat)
    ensures Removed(Entries(threads, list), Entry(t, Prio(threads, t))) == Entries(threads, Removed(list, t))
  {
    hide Find;
    EntriesFind(threads, list, t);
  }

  // ----- Boot -----

  /** What is known of a thread before it runs. */
  datatype Spec = Spec(prio: int, dummy: bool, joinq: nat)

  /** A thread as it is created: dummies stay dummies, and the idle thread needs no start. */
  function Created(spec: Spec, idle: bool): Thread {
    Thread(spec.prio, false, !idle && !spec.dummy, false, false, spec.dummy, false, None, false, 0, spec.joinq, 0)
  }

  function CreatedRecord(spec: Spec, idle: bool): (r: ThreadRecord)
    ensures ThreadRep(r, Created(spec, idle))
  {
    NoBits();
    PutNarrow(0, DUMMY, spec.dummy);
    PutNarrow(Put(0, DUMMY, spec.dummy), PRESTART, !idle && !spec.dummy);
    ThreadRecord(Put(Put(0, DUMMY, spec.dummy), PRESTART, !idle && !spec.dummy), spec.prio, None, false, 0, spec.joinq)
  }

  // ----- The memory -----

  class Memory {
    var records: seq<ThreadRecord>
    const runq: MultiQueue
    var waitqs: seq<seq<nat>>
    var current: nat
    var cache: nat
    const idle: nat
    var sliceTime: nat
    var sliceTicks: int
    var slicePrio: int
    ghost var state: State

    ghost predicate Reps()
      reads this`records, this`waitqs, this`current, this`cache, this`state, runq, runq.queues
    {
      && ThreadsRep(records, state.threads) && InRange(state.threads, runq.high)
      && runq.Valid() && runq.Contents() == Entries(state.threads, state.runq)
      && waitqs == state.waitqs && current == state.current && cache == state.cache && idle == state.idle
    }

    constructor (high: int, specs: seq<Spec>, n: nat, idle: nat, sliceTime: nat, slicePrio: int)
      requires idle < |specs| && !specs[idle].dummy && specs[idle].prio >= 0
      requires forall t :: 0 <= t < |specs| ==> high <= specs[t].prio < high + QUEUES && specs[t].joinq < n
      ensures Reps() && Boot(state) && this.idle == idle && |state.threads| == |specs| && |state.waitqs| == n
      ensures forall t :: 0 <= t < |specs| ==> state.threads[t] == Created(specs[t], t == idle)
    {
      records := seq(|specs|, t requires 0 <= t < |specs| => CreatedRecord(specs[t], t == idle));
      runq := new MultiQueue(high);
      waitqs := seq(n, _ => []);
      current, cache, this.idle := idle, idle, idle;
      this.sliceTime, this.sliceTicks, this.slicePrio := sliceTime, 0, slicePrio;
      state := State(seq(|specs|, t requires 0 <= t < |specs| => Created(specs[t], t == idle)), [], seq(n, _ => []), idle, idle, idle, 0);
      new;
      hide ThreadRep, CreatedRecord, MultiQueue.Valid, MultiQueue.Contents;
    }

    // ----- Threads -----

    predicate StateBit(t: nat, bit: nat)
      requires Reps() && t < |state.threads| && (bit < 5 || bit == QUEUED)
      reads this`records, this`waitqs, this`current, this`cache, this`state, runq, runq.queues
      ensures StateBit(t, bit) == BitOf(state.threads[t], bit)
    {
      Bit(records[t].word, bit)
    }

    function Record(t: nat): (r: ThreadRecord)
      requires Reps() && t < |state.threads|
      reads this`records, this`waitqs, this`current, this`cache, this`state, runq, runq.queues
      ensures var th := state.threads[t];
        r.prio == th.prio && r.pendedOn == th.pendedOn && r.timer == th.timer && r.locked == th.locked && r.joinq == th.joinq
    {
      records[t]
    }

    /** One of the bits that keep a thread from running is set. */
    predicate Stopped(t: nat)
      requires Reps() && t < |state.threads|
      reads this`records, this`waitqs, this`current, this`cache, this`state, runq, runq.queues
      ensures Stopped(t) == Prevented(state.threads[t])
    {
      var w := records[t].word;
      Bit(w, PENDING) || Bit(w, PRESTART) || Bit(w, DEAD) || Bit(w, DUMMY) || Bit(w, SUSPENDED)
    }

    predicate CanRun(t: nat)
      requires Reps() && t < |state.threads|
      reads this`records, this`waitqs, this`current, this`cache, this`state, runq, runq.queues
      ensures CanRun(t) == Ready(state.threads[t])
    {
      !Stopped(t) && !records[t].timer
    }

    lemma RecordAt(t: nat)
      requires Reps() && t < |state.threads|
      ensures |records| == |state.threads| && ThreadRep(records[t], state.threads[t])
    {
    }

    /** Store a record with the same priority. */
    method Store(t: nat, r: ThreadRecord, ghost th: Thread)
      requires Reps() && t < |state.threads| && ThreadRep(r, th) && th.prio == state.threads[t].prio
      modifies this`records, this`state
      ensures Reps() && state == WithThread(old(state), t, th)
    {
      EntriesSame(state.threads, state.threads[t := th], state.runq);
      hide ThreadRep, Entries, MultiQueue.Valid, MultiQueue.Contents;
      records := records[t := r];
      state := state.(threads := state.threads[t := th]);
    }

    method SetStateBit(t: nat, bit: nat, b: bool)
      requires Reps() && t < |state.threads| && (1 <= bit < 5 || bit == QUEUED)
      modifies this`records, this`state
      ensures Reps() && state == WithThread(old(state), t, WithBit(old(state).threads[t], bit, b))
    {
      hide WordRep, Put, Bit, WithBit, Reps;
      RecordAt(t);
      var r := records[t];
      ghost var th := state.threads[t];
      BitRep(r.word, th, bit, b);
      WithBitSame(th, bit, b);
      Store(t, r.(word := Put(r.word, bit, b)), WithBit(th, bit, b));
    }

    method SetPendedOn(t: nat, q: Option<nat>)
      requires Reps() && t < |state.threads|
      modifies this`records, this`state
      ensures Reps() && state == WithThread(old(state), t, old(state).threads[t].(pendedOn := q))
    {
      hide Bit, Narrow, MultiQueue.Valid, MultiQueue.Contents, Entries;
      Store(t, records[t].(pendedOn := q), state.threads[t].(pendedOn := q));
    }

    method SetTimer(t: nat, on: bool)
      requires Reps() && t < |state.threads|
      modifies this`records, this`state
      ensures Reps() && state == SchedModel.SetTimer(old(state), t, on)
    {
      hide Bit, Narrow, MultiQueue.Valid, MultiQueue.Contents, Entries;
      Store(t, records[t].(timer := on), state.threads[t].(timer := on));
    }

    method SetLocked(t: nat, n: nat)
      requires Reps() && t < |state.threads|
      modifies this`records, this`state
      ensures Reps() && state == WithThread(old(state), t, old(state).threads[t].(locked := n))
    {
      hide Bit, Narrow, MultiQueue.Valid, MultiQueue.Contents, Entries;
      Store(t, records[t].(locked := n), state.threads[t].(locked := n));
    }

    /** Only the priority of a thread that is not in the run queue may change. */
    method SetPrio(t: nat, prio: int)
      requires Reps() && t < |state.threads| && t !in state.runq && runq.high <= prio < runq.high + QUEUES
      modifies this`records, this`state
      ensures Reps() && state == WithThread(old(state), t, old(state).threads[t].(prio := prio))
    {
      EntriesSame(state.threads, state.threads[t := state.threads[t].(prio := prio)], state.runq);
      hide Bit, Narrow, MultiQueue.Valid, MultiQueue.Contents, Entries;
      records := records[t := records[t].(prio := prio)];
      state := state.(threads := state.threads[t := state.threads[t].(prio := prio)]);
    }

    /** The state word says that the thread is suspended and nothing else. */
    predicate OnlySuspended(t: nat)
      requires Reps() && t < |state.threads|
      reads this`records, this`waitqs, this`current, this`cache, this`state, runq, runq.queues
      ensures var th := state.threads[t];
        OnlySuspended(t) == (th.suspended && !th.pending && !th.prestart && !th.dead && !th.dummy && !th.queued)
    {
      SuspendedWord(records[t].word);
      records[t].word == 16
    }

    // ----- The run queue -----

    /** When a thread was queued is no part of the memory. */
    ghost method NoteStamp(t: nat, stamp: nat)
      requires Reps() && t < |state.threads|
      modifies this`state
      ensures Reps() && state == WithThread(old(state), t, old(state).threads[t].(stamp := stamp))
    {
      EntriesSame(state.threads, state.threads[t := state.threads[t].(stamp := stamp)], state.runq);
      hide Bit, Narrow, MultiQueue.Valid, MultiQueue.Contents, Entries;
      state := state.(threads := state.threads[t := state.threads[t].(stamp := stamp)]);
    }

    method QueueThread(t: nat)
      requires Reps() && t < |state.threads|
      modifies this`records, this`state, runq, runq.queues
      ensures Reps() && state == Queue(old(state), t)
    {
      hide ThreadRep, Flat, Added, Rank, InsertAt, Entries;
      EntriesAdded(state.threads, state.runq, t);
      ghost var p := Rank(SchedModel.Prios(state.threads, state.runq), state.threads[t].prio);
      runq.Add(Entry(t, Record(t).prio));
      state := state.(runq := InsertAt(state.runq, p, t), stamps := state.stamps + 1);
      SetStateBit(t, QUEUED, true);
      NoteStamp(t, old(state).stamps);
    }

    lemma InQueue(t: nat)
      requires Reps() && t < |state.threads| && t in state.runq
      ensures var e := Entry(t, state.threads[t].prio); runq.high <= e.prio < runq.high + QUEUES && e in runq.queues[e.prio - runq.high]
    {
      var i :| 0 <= i < |state.runq| && state.runq[i] == t;
      assert Entries(state.threads, state.runq)[i] == Entry(t, state.threads[t].prio);
      InBand(runq.queues[..], runq.high, Entry(t, state.threads[t].prio));
    }

    method DequeueThread(t: nat)
      requires Reps() && t < |state.threads| && t in state.runq
      modifies this`records, this`state, runq, runq.queues
      ensures Reps() && state == Dequeue(old(state), t)
    {
      hide ThreadRep, Flat, Removed, Entries;
      InQueue(t);
      EntriesRemoved(state.threads, state.runq, t);
      runq.Remove(Entry(t, Record(t).prio));
      state := state.(runq := Removed(state.runq, t));
      SetStateBit(t, QUEUED, false);
    }

    /** The best thread, or the idle one. */
    method NextUp() returns (t: nat)
      requires Reps()
      ensures t == SchedModel.Best(state)
    {
      hide ThreadRep, Flat;
      var e := runq.Peek();
      t := if e.Some? then e.value.thread else idle;
    }

    // ----- Wait queues, cache and current thread -----

    method SetWaitq(q: nat, list: seq<nat>)
      requires Reps() && q < |state.waitqs|
      modifies this`waitqs, this`state
      ensures Reps() && state == old(state).(waitqs := old(state).waitqs[q := list])
    {
      hide ThreadsRep, Entries, MultiQueue.Valid, MultiQueue.Contents;
      waitqs := waitqs[q := list];
      state := state.(waitqs := state.waitqs[q := list]);
    }

    method SetCache(t: nat)
      requires Reps()
      modifies this`cache, this`state
      ensures Reps() && state == old(state).(cache := t)
    {
      hide ThreadsRep, Entries, MultiQueue.Valid, MultiQueue.Contents;
      cache := t;
      state := state.(cache := t);
    }

    function Waitq(q: nat): (list: seq<nat>)
      requires Reps() && q < |state.waitqs|
      reads this`records, this`waitqs, this`current, this`cache, this`state, runq, runq.queues
      ensures list == state.waitqs[q]
    {
      waitqs[q]
    }

    function Current(): (t: nat)
      requires Reps()
      reads this`records, this`waitqs, this`current, this`cache, this`state, runq, runq.queues
      ensures t == state.current
    {
      current
    }

    predicate IsIdle(t: nat)
      requires Reps()
      reads this`records, this`waitqs, this`current, this`cache, this`state, runq, runq.queues
      ensures IsIdle(t) == (t == state.idle)
    {
      t == idle
    }

    /** Switch to the cached thread. */
    method Switch()
      requires Reps()
      modifies this`current, this`state
      ensures Reps() && state == Swap(old(state))
    {
      hide ThreadsRep, Entries, MultiQueue.Valid, MultiQueue.Contents;
      current := cache;
      state := state.(current := state.cache);
    }
  }
}
