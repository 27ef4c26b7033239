/** Message queues (kernel/msg_q.c) as a state machine with a log of everything that happens. */
module MsgqModel {
  import opened Lists

  const EAGAIN := 11
  const ENOMSG := 35

  type Byte = b: int | 0 <= b < 256

  type Msg = seq<Byte>

  /** A waiting thread: with a message to send, or to receive one.  Both kinds share one wait queue. */
  datatype Waiter = Sender(id: nat, prio: int, msg: Msg) | Receiver(id: nat, prio: int)

  /** How a call ended, or that a message was thrown away. */
  datatype Event = Sent(id: nat, msg: Msg) | Got(id: nat, msg: Msg) | Failed(id: nat, ret: int) | Purged(msg: Msg)

  /** Calls are numbered by `calls`. */
  datatype State = State(max: nat, ring: seq<Msg>, waiters: seq<Waiter>, calls: nat, log: seq<Event>)

  datatype Step = DoPut(prio: int, msg: Msg, noWait: bool) | DoGet(prio: int, noWait: bool) | DoPurge | DoTimeout(i: nat)

  function Prios(list: seq<Waiter>): (r: seq<int>)
    ensures |r| == |list| && forall i :: 0 <= i < |list| ==> r[i] == list[i].prio
  {
    seq(|list|, i requires 0 <= i < |list| => list[i].prio)
  }

  /** Only receivers wait while there is room, and only senders while there are messages. */
  ghost predicate Fit(s: State) {
    && |s.ring| <= s.max
    && (|s.ring| < s.max ==> forall i :: 0 <= i < |s.waiters| ==> s.waiters[i].Receiver?)
    && (|s.ring| > 0 ==> forall i :: 0 <= i < |s.waiters| ==> s.waiters[i].Sender?)
  }

  /** The queue hands a message to the first waiting receiver, or stores it. */
  function Put(s: State, prio: int, msg: Msg, noWait: bool): State
    requires Fit(s)
  {
    var id := s.calls;
    var t := s.(calls := id + 1);
    if |s.ring| < s.max then
      if s.waiters != [] then
        t.(waiters := s.waiters[1..], log := s.log + [Sent(id, msg), Got(s.waiters[0].id, msg)])
      else t.(ring := s.ring + [msg], log := s.log + [Sent(id, msg)])
    else if noWait then t.(log := s.log + [Failed(id, -ENOMSG)])
    else t.(waiters := InsertAt(s.waiters, Rank(Prios(s.waiters), prio), Sender(id, prio, msg)))
  }

  /** The first message is taken; its place goes to the first waiting sender. */
  function Get(s: State, prio: int, noWait: bool): State
    requires Fit(s)
  {
    var id := s.calls;
    var t := s.(calls := id + 1);
    if |s.ring| > 0 then
      if s.waiters != [] then
        t.(ring := s.ring[1..] + [s.waiters[0].msg],
           waiters := s.waiters[1..],
           log := s.log + [Got(id, s.ring[0]), Sent(s.waiters[0].id, s.waiters[0].msg)])
      else t.(ring := s.ring[1..], log := s.log + [Got(id, s.ring[0])])
    else if noWait then t.(log := s.log + [Failed(id, -ENOMSG)])
    else t.(waiters := InsertAt(s.waiters, Rank(Prios(s.waiters), prio), Receiver(id, prio)))
  }

  function Refused(list: seq<Waiter>): seq<Event> {
    if list == [] then [] else [Failed(list[0].id, -ENOMSG)] + Refused(list[1..])
  }

  function Dropped(ring: seq<Msg>): seq<Event> {
    if ring == [] then [] else [Purged(ring[0])] + Dropped(ring[1..])
  }

  function Purge(s: State): State {
    s.(ring := [], waiters := [], log := s.log + Refused(s.waiters) + Dropped(s.ring))
  }

  function Timeout(s: State, i: nat): State {
    if i < |s.waiters| then s.(waiters := RemoveAt(s.waiters, i), log := s.log + [Failed(s.waiters[i].id, -EAGAIN)]) else s
  }

  function Next(s: State, step: Step): (t: State)
    requires Fit(s)
    ensures Fit(t) && t.max == s.max
  {
    match step
    case DoPut(prio, msg, noWait) => Put(s, prio, msg, noWait)
    case DoGet(prio, noWait) => Get(s, prio, noWait)
    case DoPurge => Purge(s)
    case DoTimeout(i) => Timeout(s, i)
  }

  function Run(s: State, steps: seq<Step>): (t: State)
    requires Fit(s)
    ensures Fit(t) && t.max == s.max
    decreases |steps|
  {
    if steps == [] then s else Run(Next(s, steps[0]), steps[1..])
  }

  function Fresh(max: nat): (s: State)
    ensures Fit(s)
  {
    State(max, [], [], 0, [])
  }

  // ----- First in, first out -----

  /** The messages accepted, in order. */
  function In(log: seq<Event>): seq<Msg> {
    if log == [] then [] else (if log[0].Sent? then [log[0].msg] else []) + In(log[1..])
  }

  /** The messages that left, delivered or purged, in order. */
  function Out(log: seq<Event>): seq<Msg> {
    if log == [] then [] else (if log[0].Got? || log[0].Purged? then [log[0].msg] else []) + Out(log[1..])
  }

  lemma {:induction false} InAppend(a: seq<Event>, b: seq<Event>)
    ensures In(a + b) == In(a) + In(b)
  {
    if a == [] {
      assert a + b == b;
    } else {
      InAppend(a[1..], b);
      assert (a + b)[1..] == a[1..] + b;
      Associative(if a[0].Sent? then [a[0].msg] else [], In(a[1..]), In(b));
    }
  }

  lemma {:induction false} OutAppend(a: seq<Event>, b: seq<Event>)
    ensures Out(a + b) == Out(a) + Out(b)
  {
    if a == [] {
      assert a + b == b;
    } else {
      OutAppend(a[1..], b);
      assert (a + b)[1..] == a[1..] + b;
      Associative(if a[0].Got? || a[0].Purged? then [a[0].msg] else [], Out(a[1..]), Out(b));
    }
  }

  lemma LogAppend(a: seq<Event>, b: seq<Event>)
    ensures In(a + b) == In(a) + In(b) && Out(a + b) == Out(a) + Out(b)
  {
    hide In, Out;
    InAppend(a, b);
    OutAppend(a, b);
  }

  lemma LogOne(e: Event)
    ensures In([e]) == (if e.Sent? then [e.msg] else [])
    ensures Out([e]) == (if e.Got? || e.Purged? then [e.msg] else [])
  {
  }

  lemma LogTwo(e: Event, f: Event)
    ensures In([e, f]) == In([e]) + In([f]) && Out([e, f]) == Out([e]) + Out([f])
  {
  }

  lemma {:induction false} RefusedLog(list: seq<Waiter>)
    ensures In(Refused(list)) == [] && Out(Refused(list)) == []
  {
    if list != [] {
      RefusedLog(list[1..]);
      LogAppend([Failed(list[0].id, -ENOMSG)], Refused(list[1..]));
      LogOne(Failed(list[0].id, -ENOMSG));
    }
  }

  lemma {:induction false} DroppedLog(ring: seq<Msg>)
    ensures In(Dropped(ring)) == [] && Out(Dropped(ring)) == ring
  {
    if ring != [] {
      hide In, Out;
      DroppedLog(ring[1..]);
      LogAppend([Purged(ring[0])], Dropped(ring[1..]));
      LogOne(Purged(ring[0]));
      assert Dropped(ring) == [Purged(ring[0])] + Dropped(ring[1..]);
    }
  }

  ghost predicate Fifo(s: State) { In(s.log) == Out(s.log) + s.ring }

  lemma PutFifo(s: State, prio: int, msg: Msg, noWait: bool)
    requires Fit(s) && Fifo(s)
    ensures Fifo(Put(s, prio, msg, noWait))
  {
    hide Rank, In, Out, InsertAt;
    var id := s.calls;
    if |s.ring| < s.max {
      if s.waiters != [] {
        assert s.waiters[0].Receiver?;
        assert s.ring == [];
        var e, f := Sent(id, msg), Got(s.waiters[0].id, msg);
        LogAppend(s.log, [e, f]);
        LogTwo(e, f);
        LogOne(e);
        LogOne(f);
      } else {
        LogAppend(s.log, [Sent(id, msg)]);
        LogOne(Sent(id, msg));
      }
    } else if noWait {
      LogAppend(s.log, [Failed(id, -ENOMSG)]);
      LogOne(Failed(id, -ENOMSG));
    }
  }

  lemma GetFifo(s: State, prio: int, noWait: bool)
    requires Fit(s) && Fifo(s)
    ensures Fifo(Get(s, prio, noWait))
  {
    hide Rank, In, Out;
    var id := s.calls;
    if |s.ring| > 0 {
      var e := Got(id, s.ring[0]);
      LogOne(e);
      if s.waiters != [] {
        var f := Sent(s.waiters[0].id, s.waiters[0].msg);
        LogAppend(s.log, [e, f]);
        LogTwo(e, f);
        LogOne(f);
      } else {
        LogAppend(s.log, [e]);
      }
    } else if noWait {
      LogAppend(s.log, [Failed(id, -ENOMSG)]);
      LogOne(Failed(id, -ENOMSG));
    }
  }

  lemma PurgeFifo(s: State)
    requires Fifo(s)
    ensures Fifo(Purge(s))
  {
    hide In, Out;
    RefusedLog(s.waiters);
    DroppedLog(s.ring);
    LogAppend(s.log, Refused(s.waiters));
    LogAppend(s.log + Refused(s.waiters), Dropped(s.ring));
  }

  lemma TimeoutFifo(s: State, i: nat)
    requires Fifo(s)
    ensures Fifo(Timeout(s, i))
  {
    hide In, Out;
    if i < |s.waiters| {
      LogAppend(s.log, [Failed(s.waiters[i].id, -EAGAIN)]);
      LogOne(Failed(s.waiters[i].id, -EAGAIN));
    }
  }

  lemma {:induction false} RunFifo(s: State, steps: seq<Step>)
    requires Fit(s) && Fifo(s)
    ensures Fifo(Run(s, steps))
    decreases |steps|
  {
    if steps != [] {
      match steps[0] {
        case DoPut(prio, msg, noWait) => PutFifo(s, prio, msg, noWait);
        case DoGet(prio, noWait) => GetFifo(s, prio, noWait);
        case DoPurge => PurgeFifo(s);
        case DoTimeout(i) => TimeoutFifo(s, i);
      }
      hide Fifo, Put, Get, Purge, Timeout;
      RunFifo(Next(s, steps[0]), steps[1..]);
    }
  }

  /**
   Over every run the messages accepted are, in order, the messages delivered or purged followed by what is in the queue; and
   the queue never holds more than its maximum.
   */
  lemma BoundedFifo(max: nat, steps: seq<Step>)
    ensures var s := Run(Fresh(max), steps); In(s.log) == Out(s.log) + s.ring && |s.ring| <= max
  {
    RunFifo(Fresh(max), steps);
  }

  // ----- Who waits -----

  /** With room for a message, either nobody waits, or only receivers at an empty queue, or only senders at a full one. */
  ghost predicate OneRole(s: State) {
    || (|s.ring| == 0 && forall i :: 0 <= i < |s.waiters| ==> s.waiters[i].Receiver?)
    || (|s.ring| == s.max && forall i :: 0 <= i < |s.waiters| ==> s.waiters[i].Sender?)
    || s.waiters == []
  }

  lemma FitOneRole(s: State)
    requires Fit(s) && s.max >= 1
    ensures OneRole(s)
  {
    if s.waiters != [] {
      var first := s.waiters[0];
      assert first.Receiver? ==> |s.ring| == 0;
      assert first.Sender? ==> |s.ring| == s.max;
    }
  }

  lemma NoRoom()
    ensures Run(Fresh(0), [DoPut(0, [], false), DoGet(0, false)]).waiters == [Sender(0, 0, []), Receiver(1, 0)]
  {
  }

  /** The roles never mix, in any run, if and only if the queue can hold a message at all. */
  lemma RolesNeverMix(max: nat)
    ensures (forall steps: seq<Step> :: OneRole(Run(Fresh(max), steps))) <==> max >= 1
  {
    if max >= 1 {
      forall steps: seq<Step> ensures OneRole(Run(Fresh(max), steps)) {
        FitOneRole(Run(Fresh(max), steps));
      }
    } else {
      NoRoom();
      var s := Run(Fresh(max), [DoPut(0, [], false), DoGet(0, false)]);
      assert s.waiters[0].Sender? && s.waiters[1].Receiver?;
      assert !OneRole(s);
    }
  }

  // ----- Every call ends once -----

  function Ended(log: seq<Event>): seq<nat> {
    if log == [] then [] else (if log[0].Purged? then [] else [log[0].id]) + Ended(log[1..])
  }

  function Open(waiters: seq<Waiter>): seq<nat> {
    seq(|waiters|, i requires 0 <= i < |waiters| => waiters[i].id)
  }

  /** Every call so far has ended exactly once, or is waiting. */
  ghost predicate Ledger(s: State) {
    EachOnce(multiset(Ended(s.log)) + multiset(Open(s.waiters)), s.calls)
  }

  lemma {:induction false} EndedAppend(a: seq<Event>, b: seq<Event>)
    ensures Ended(a + b) == Ended(a) + Ended(b)
  {
    if a == [] {
      assert a + b == b;
    } else {
      EndedAppend(a[1..], b);
      assert (a + b)[1..] == a[1..] + b;
      Associative(if a[0].Purged? then [] else [a[0].id], Ended(a[1..]), Ended(b));
    }
  }

  lemma EndedOne(log: seq<Event>, e: Event)
    requires !e.Purged?
    ensures Ended(log + [e]) == Ended(log) + [e.id]
  {
    EndedAppend(log, [e]);
    assert [e][1..] == [];
    assert Ended([e]) == [e.id];
  }

  lemma EndedTwo(log: seq<Event>, e: Event, f: Event)
    requires !e.Purged? && !f.Purged?
    ensures Ended(log + [e, f]) == Ended(log) + [e.id] + [f.id]
  {
    EndedOne(log, e);
    EndedOne(log + [e], f);
    assert log + [e] + [f] == log + [e, f];
  }

  lemma OpenInsert(list: seq<Waiter>, p: nat, w: Waiter)
    requires p <= |list|
    ensures multiset(Open(InsertAt(list, p, w))) == multiset(Open(list)) + multiset{w.id}
  {
    InsertAtMultiset(Open(list), p, w.id);
    assert Open(InsertAt(list, p, w)) == InsertAt(Open(list), p, w.id);
  }

  lemma OpenRemove(list: seq<Waiter>, p: nat)
    requires p < |list|
    ensures multiset(Open(list)) == multiset(Open(RemoveAt(list, p))) + multiset{list[p].id}
  {
    RemoveAtMultiset(Open(list), p);
    assert Open(RemoveAt(list, p)) == RemoveAt(Open(list), p);
  }

  lemma OpenTail(list: seq<Waiter>)
    requires list != []
    ensures multiset(Open(list)) == multiset(Open(list[1..])) + multiset{list[0].id}
  {
    OpenRemove(list, 0);
    assert RemoveAt(list, 0) == list[1..];
  }

  lemma {:induction false} RefusedEnded(list: seq<Waiter>)
    ensures Ended(Refused(list)) == Open(list)
  {
    if list != [] {
      RefusedEnded(list[1..]);
      EndedAppend([Failed(list[0].id, -ENOMSG)], Refused(list[1..]));
      EndedOne([], Failed(list[0].id, -ENOMSG));
      assert [] + [Failed(list[0].id, -ENOMSG)] == [Failed(list[0].id, -ENOMSG)];
      assert Open(list) == [list[0].id] + Open(list[1..]);
    }
  }

  lemma {:induction false} DroppedEnded(ring: seq<Msg>)
    ensures Ended(Dropped(ring)) == []
  {
    if ring != [] {
      DroppedEnded(ring[1..]);
      assert Dropped(ring)[1..] == Dropped(ring[1..]);
    }
  }

  lemma EndsAtOnce(s: State, t: State, e: Event)
    requires Ledger(s) && t.calls == s.calls + 1 && t.waiters == s.waiters
    requires !e.Purged? && e.id == s.calls && t.log == s.log + [e]
    ensures Ledger(t)
  {
    hide EachOnce, Ended, Open;
    var ids := multiset(Ended(s.log)) + multiset(Open(s.waiters));
    EachOnceMore(ids, s.calls);
    EndedOne(s.log, e);
    assert multiset(Ended(t.log)) + multiset(Open(t.waiters)) == ids + multiset{s.calls};
  }

  lemma EndsWithWaiter(s: State, t: State, e: Event, f: Event)
    requires Ledger(s) && t.calls == s.calls + 1 && s.waiters != [] && t.waiters == s.waiters[1..]
    requires !e.Purged? && !f.Purged? && e.id == s.calls && f.id == s.waiters[0].id && t.log == s.log + [e, f]
    ensures Ledger(t)
  {
    hide EachOnce, Ended, Open;
    var ids := multiset(Ended(s.log)) + multiset(Open(s.waiters));
    EachOnceMore(ids, s.calls);
    EndedTwo(s.log, e, f);
    OpenTail(s.waiters);
    assert multiset(Ended(t.log)) + multiset(Open(t.waiters)) == ids + multiset{s.calls};
  }

  lemma StartsToWait(s: State, t: State, p: nat, w: Waiter)
    requires Ledger(s) && t.calls == s.calls + 1 && t.log == s.log
    requires p <= |s.waiters| && w.id == s.calls && t.waiters == InsertAt(s.waiters, p, w)
    ensures Ledger(t)
  {
    hide EachOnce, Ended, Open;
    var ids := multiset(Ended(s.log)) + multiset(Open(s.waiters));
    EachOnceMore(ids, s.calls);
    OpenInsert(s.waiters, p, w);
    assert multiset(Ended(t.log)) + multiset(Open(t.waiters)) == ids + multiset{s.calls};
  }

  lemma PutLedger(s: State, prio: int, msg: Msg, noWait: bool)
    requires Fit(s) && Ledger(s)
    ensures Ledger(Put(s, prio, msg, noWait))
  {
    hide Ledger, Rank, InsertAt;
    var id := s.calls;
    var t := Put(s, prio, msg, noWait);
    if |s.ring| < s.max {
      if s.waiters != [] {
        EndsWithWaiter(s, t, Sent(id, msg), Got(s.waiters[0].id, msg));
      } else {
        EndsAtOnce(s, t, Sent(id, msg));
      }
    } else if noWait {
      EndsAtOnce(s, t, Failed(id, -ENOMSG));
    } else {
      StartsToWait(s, t, Rank(Prios(s.waiters), prio), Sender(id, prio, msg));
    }
  }

  lemma GetLedger(s: State, prio: int, noWait: bool)
    requires Fit(s) && Ledger(s)
    ensures Ledger(Get(s, prio, noWait))
  {
    hide Ledger, Rank, InsertAt;
    var id := s.calls;
    var t := Get(s, prio, noWait);
    if |s.ring| > 0 {
      if s.waiters != [] {
        EndsWithWaiter(s, t, Got(id, s.ring[0]), Sent(s.waiters[0].id, s.waiters[0].msg));
      } else {
        EndsAtOnce(s, t, Got(id, s.ring[0]));
      }
    } else if noWait {
      EndsAtOnce(s, t, Failed(id, -ENOMSG));
    } else {
      StartsToWait(s, t, Rank(Prios(s.waiters), prio), Receiver(id, prio));
    }
  }

  lemma PurgeLedger(s: State)
    requires Ledger(s)
    ensures Ledger(Purge(s))
  {
    hide EachOnce, Ended;
    RefusedEnded(s.waiters);
    DroppedEnded(s.ring);
    EndedAppend(s.log, Refused(s.waiters));
    EndedAppend(s.log + Refused(s.waiters), Dropped(s.ring));
    var t := Purge(s);
    assert Ended(t.log) == Ended(s.log) + Open(s.waiters);
    assert Open(t.waiters) == [];
    hide Open;
    assert multiset(Ended(t.log)) + multiset(Open(t.waiters)) == multiset(Ended(s.log)) + multiset(Open(s.waiters));
  }

  lemma TimeoutLedger(s: State, i: nat)
    requires Ledger(s)
    ensures Ledger(Timeout(s, i))
  {
    hide EachOnce, Ended, Open;
    if i < |s.waiters| {
      EndedOne(s.log, Failed(s.waiters[i].id, -EAGAIN));
      OpenRemove(s.waiters, i);
      var t := Timeout(s, i);
      assert multiset(Ended(t.log)) + multiset(Open(t.waiters)) == multiset(Ended(s.log)) + multiset(Open(s.waiters));
    }
  }

  lemma {:induction false} RunLedger(s: State, steps: seq<Step>)
    requires Fit(s) && Ledger(s)
    ensures Ledger(Run(s, steps))
    decreases |steps|
  {
    if steps != [] {
      match steps[0] {
        case DoPut(prio, msg, noWait) => PutLedger(s, prio, msg, noWait);
        case DoGet(prio, noWait) => GetLedger(s, prio, noWait);
        case DoPurge => PurgeLedger(s);
        case DoTimeout(i) => TimeoutLedger(s, i);
      }
      hide Ledger, Put, Get, Purge, Timeout;
      RunLedger(Next(s, steps[0]), steps[1..]);
    }
  }

  // ----- Every call ends as what it was -----

  /** The calls among some steps; call number `id` is the one at index `id`. */
  function Calls(steps: seq<Step>): seq<Step> {
    if steps == [] then [] else (if steps[0].DoPut? || steps[0].DoGet? then [steps[0]] else []) + Calls(steps[1..])
  }

  /**
   A put ends having sent its own message and a get having got one, or it fails: with -EAGAIN only if it was ready to wait.
   */
  ghost predicate EndOk(e: Event, calls: seq<Step>) {
    match e
    case Sent(id, msg) => id < |calls| && calls[id].DoPut? && calls[id].msg == msg
    case Got(id, _) => id < |calls| && calls[id].DoGet?
    case Failed(id, ret) =>
      && id < |calls| && (calls[id].DoPut? || calls[id].DoGet?)
      && (ret == -ENOMSG || (ret == -EAGAIN && !calls[id].noWait))
    case Purged(_) => true
  }

  /** A thread that waits does so on behalf of a call that is ready to wait. */
  ghost predicate WaitOk(w: Waiter, calls: seq<Step>) {
    && w.id < |calls|
    && calls[w.id] == match w case Sender(_, prio, msg) => DoPut(prio, msg, false) case Receiver(_, prio) => DoGet(prio, false)
  }

  ghost predicate AllEndOk(log: seq<Event>, calls: seq<Step>) { forall i :: 0 <= i < |log| ==> EndOk(log[i], calls) }

  ghost predicate AllWaitOk(list: seq<Waiter>, calls: seq<Step>) { forall i :: 0 <= i < |list| ==> WaitOk(list[i], calls) }

  ghost predicate Matches(s: State, calls: seq<Step>) {
    s.calls == |calls| && AllEndOk(s.log, calls) && AllWaitOk(s.waiters, calls)
  }

  lemma CallMore(s: State, calls: seq<Step>, call: Step)
    requires Matches(s, calls)
    ensures AllEndOk(s.log, calls + [call]) && AllWaitOk(s.waiters, calls + [call]) && (calls + [call])[s.calls] == call
  {
    forall i | 0 <= i < |s.log| ensures EndOk(s.log[i], calls + [call]) {
      assert EndOk(s.log[i], calls);
    }
    forall i | 0 <= i < |s.waiters| ensures WaitOk(s.waiters[i], calls + [call]) {
      assert WaitOk(s.waiters[i], calls);
    }
  }

  lemma LogMore(log: seq<Event>, more: seq<Event>, calls: seq<Step>)
    requires AllEndOk(log, calls) && AllEndOk(more, calls)
    ensures AllEndOk(log + more, calls)
  {
    hide EndOk;
  }

  lemma PutMatches(s: State, calls: seq<Step>, prio: int, msg: Msg, noWait: bool)
    requires Fit(s) && Matches(s, calls)
    ensures Matches(Put(s, prio, msg, noWait), calls + [DoPut(prio, msg, noWait)])
  {
    hide Rank;
    var all, id := calls + [DoPut(prio, msg, noWait)], s.calls;
    CallMore(s, calls, DoPut(prio, msg, noWait));
    if |s.ring| < s.max {
      if s.waiters != [] {
        assert WaitOk(s.waiters[0], all);
        LogMore(s.log, [Sent(id, msg), Got(s.waiters[0].id, msg)], all);
      } else {
        LogMore(s.log, [Sent(id, msg)], all);
      }
    } else if noWait {
      LogMore(s.log, [Failed(id, -ENOMSG)], all);
    } else {
      assert WaitOk(Sender(id, prio, msg), all);
      hide WaitOk;
    }
  }

  lemma GetMatches(s: State, calls: seq<Step>, prio: int, noWait: bool)
    requires Fit(s) && Matches(s, calls)
    ensures Matches(Get(s, prio, noWait), calls + [DoGet(prio, noWait)])
  {
    hide Rank;
    var all, id := calls + [DoGet(prio, noWait)], s.calls;
    CallMore(s, calls, DoGet(prio, noWait));
    if |s.ring| > 0 {
      if s.waiters != [] {
        assert WaitOk(s.waiters[0], all);
        LogMore(s.log, [Got(id, s.ring[0]), Sent(s.waiters[0].id, s.waiters[0].msg)], all);
      } else {
        LogMore(s.log, [Got(id, s.ring[0])], all);
      }
    } else if noWait {
      LogMore(s.log, [Failed(id, -ENOMSG)], all);
    } else {
      assert WaitOk(Receiver(id, prio), all);
      hide WaitOk;
    }
  }

  lemma {:induction false} RefusedOk(list: seq<Waiter>, calls: seq<Step>)
    requires AllWaitOk(list, calls)
    ensures AllEndOk(Refused(list), calls)
  {
    if list != [] {
      assert WaitOk(list[0], calls);
      assert AllWaitOk(list[1..], calls);
      RefusedOk(list[1..], calls);
      LogMore([Failed(list[0].id, -ENOMSG)], Refused(list[1..]), calls);
    }
  }

  lemma {:induction false} DroppedOk(ring: seq<Msg>, calls: seq<Step>)
    ensures AllEndOk(Dropped(ring), calls)
  {
    if ring != [] {
      DroppedOk(ring[1..], calls);
      LogMore([Purged(ring[0])], Dropped(ring[1..]), calls);
    }
  }

  lemma EndMatches(s: State, calls: seq<Step>, step: Step)
    requires Fit(s) && Matches(s, calls) && (step.DoPurge? || step.DoTimeout?)
    ensures Matches(Next(s, step), calls)
  {
    match step
    case DoPurge =>
      RefusedOk(s.waiters, calls);
      DroppedOk(s.ring, calls);
      LogMore(s.log, Refused(s.waiters), calls);
      LogMore(s.log + Refused(s.waiters), Dropped(s.ring), calls);
    case DoTimeout(i) =>
      if i < |s.waiters| {
        assert WaitOk(s.waiters[i], calls);
        LogMore(s.log, [Failed(s.waiters[i].id, -EAGAIN)], calls);
      }
  }

  lemma NextMatches(s: State, calls: seq<Step>, step: Step)
    requires Fit(s) && Matches(s, calls)
    ensures Matches(Next(s, step), if step.DoPut? || step.DoGet? then calls + [step] else calls)
  {
    hide Fit, Matches, Put, Get;
    match step
    case DoPut(prio, msg, noWait) => PutMatches(s, calls, prio, msg, noWait);
    case DoGet(prio, noWait) => GetMatches(s, calls, prio, noWait);
    case DoPurge => EndMatches(s, calls, step);
    case DoTimeout(_) => EndMatches(s, calls, step);
  }

  lemma {:induction false} RunMatches(s: State, calls: seq<Step>, steps: seq<Step>)
    requires Fit(s) && Matches(s, calls)
    ensures Matches(Run(s, steps), calls + Calls(steps))
    decreases |steps|
  {
    hide Fit, Matches, Next;
    if steps == [] {
      assert calls + Calls(steps) == calls;
    } else {
      NextMatches(s, calls, steps[0]);
      var more := if steps[0].DoPut? || steps[0].DoGet? then calls + [steps[0]] else calls;
      RunMatches(Next(s, steps[0]), more, steps[1..]);
      assert more + Calls(steps[1..]) == calls + Calls(steps);
    }
  }

  /**
   Over every run, every call has ended exactly once or waits exactly once; it ended as what it was, and it waits on behalf of
   that call.
   */
  lemma EveryCallOnce(max: nat, steps: seq<Step>)
    ensures var s := Run(Fresh(max), steps);
      && EachOnce(multiset(Ended(s.log)) + multiset(Open(s.waiters)), s.calls) && s.calls == |Calls(steps)|
      && (forall i :: 0 <= i < |s.log| ==> EndOk(s.log[i], Calls(steps)))
      && (forall i :: 0 <= i < |s.waiters| ==> WaitOk(s.waiters[i], Calls(steps)))
  {
    assert Open(Fresh(max).waiters) == [];
    RunLedger(Fresh(max), steps);
    RunMatches(Fresh(max), [], steps);
    assert [] + Calls(steps) == Calls(steps);
  }

  // ----- What calls answer -----

  /** What a step has added to the log. */
  function Added(s: State, t: State): seq<Event>
    requires |s.log| <= |t.log|
  {
    t.log[|s.log|..]
  }

  /** `w` is new among the waiters: behind everyone who is no worse, and before the first who is. */
  ghost predicate Joins(before: seq<Waiter>, after: seq<Waiter>, w: Waiter) {
    exists i: nat :: InPlace(Prios(before), i, w.prio) && after == InsertAt(before, i, w)
  }

  lemma JoinsAtRank(list: seq<Waiter>, w: Waiter)
    ensures Joins(list, InsertAt(list, Rank(Prios(list), w.prio), w), w)
  {
    hide Rank, InsertAt, Prios;
    assert InPlace(Prios(list), Rank(Prios(list), w.prio), w.prio);
  }

  /**
   A put is accepted if and only if there is room; the first receiver that waits has the message then, and only without one it is
   stored.  With no room it fails if it may not wait, and waits otherwise; the messages stay as they are.
   */
  lemma PutAnswer(s: State, prio: int, msg: Msg, noWait: bool)
    requires Fit(s)
    ensures var t, id := Put(s, prio, msg, noWait), s.calls;
      && s.log <= t.log
      && (|s.ring| < s.max <==> Sent(id, msg) in Added(s, t))
      && (|s.ring| < s.max && s.waiters != [] ==>
            Got(s.waiters[0].id, msg) in Added(s, t) && t.waiters == s.waiters[1..] && t.ring == s.ring)
      && (|s.ring| < s.max && s.waiters == [] ==> t.ring == s.ring + [msg] && t.waiters == [] && Added(s, t) == [Sent(id, msg)])
      && (|s.ring| >= s.max ==>
            && t.ring == s.ring
            && if noWait then t.waiters == s.waiters && Added(s, t) == [Failed(id, -ENOMSG)]
               else Joins(s.waiters, t.waiters, Sender(id, prio, msg)) && Added(s, t) == [])
  {
    JoinsAtRank(s.waiters, Sender(s.calls, prio, msg));
    hide Fit, Rank, InsertAt, Joins;
    if |s.ring| < s.max {
      var t := Put(s, prio, msg, noWait);
      assert Added(s, t)[0] == Sent(s.calls, msg);
      if s.waiters != [] {
        assert Added(s, t)[1] == Got(s.waiters[0].id, msg);
      }
    }
  }

  /**
   A get has the oldest message if and only if there is one; the first sender that waits has its message stored then, last.  With
   none it fails if it may not wait, and waits otherwise.
   */
  lemma GetAnswer(s: State, prio: int, noWait: bool)
    requires Fit(s)
    ensures var t, id := Get(s, prio, noWait), s.calls;
      && s.log <= t.log
      && (|s.ring| > 0 ==> Got(id, s.ring[0]) in Added(s, t))
      && (|s.ring| > 0 && s.waiters != [] ==>
            && s.waiters[0].Sender? && Sent(s.waiters[0].id, s.waiters[0].msg) in Added(s, t)
            && t.waiters == s.waiters[1..] && t.ring == s.ring[1..] + [s.waiters[0].msg])
      && (|s.ring| > 0 && s.waiters == [] ==> t.ring == s.ring[1..] && t.waiters == [] && Added(s, t) == [Got(id, s.ring[0])])
      && (|s.ring| == 0 ==>
            && t.ring == []
            && if noWait then t.waiters == s.waiters && Added(s, t) == [Failed(id, -ENOMSG)]
               else Joins(s.waiters, t.waiters, Receiver(id, prio)) && Added(s, t) == [])
  {
    JoinsAtRank(s.waiters, Receiver(s.calls, prio));
    hide Rank, InsertAt, Joins;
    if |s.ring| > 0 {
      var t := Get(s, prio, noWait);
      assert Added(s, t)[0] == Got(s.calls, s.ring[0]);
      if s.waiters != [] {
        assert Added(s, t)[1] == Sent(s.waiters[0].id, s.waiters[0].msg);
      }
    }
  }

  lemma {:induction false} RefusedAll(list: seq<Waiter>)
    ensures |Refused(list)| == |list| && forall i :: 0 <= i < |list| ==> Refused(list)[i] == Failed(list[i].id, -ENOMSG)
  {
    if list != [] {
      RefusedAll(list[1..]);
    }
  }

  lemma {:induction false} DroppedAll(ring: seq<Msg>)
    ensures |Dropped(ring)| == |ring| && forall i :: 0 <= i < |ring| ==> Dropped(ring)[i] == Purged(ring[i])
  {
    if ring != [] {
      DroppedAll(ring[1..]);
    }
  }

  /** A purge leaves nothing and nobody: each waiter fails with -ENOMSG and each message is thrown away, in order. */
  lemma PurgeAnswer(s: State)
    ensures var t, n := Purge(s), |s.waiters|;
      && t.ring == [] && t.waiters == [] && s.log <= t.log && |Added(s, t)| == n + |s.ring|
      && (forall i :: 0 <= i < n ==> Added(s, t)[i] == Failed(s.waiters[i].id, -ENOMSG))
      && (forall i :: 0 <= i < |s.ring| ==> Added(s, t)[n + i] == Purged(s.ring[i]))
  {
    RefusedAll(s.waiters);
    DroppedAll(s.ring);
    hide Refused, Dropped;
    assert Added(s, Purge(s)) == Refused(s.waiters) + Dropped(s.ring);
  }

  /** A waiter whose time is up fails with -EAGAIN, and the others wait on. */
  lemma TimeoutAnswer(s: State, i: nat)
    requires i < |s.waiters|
    ensures var t := Timeout(s, i);
      && t.waiters == RemoveAt(s.waiters, i) && t.ring == s.ring && s.log <= t.log
      && Added(s, t) == [Failed(s.waiters[i].id, -EAGAIN)]
  {
  }
}
