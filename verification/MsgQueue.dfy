/** The message queue of kernel/msg_q.c on its byte buffer, proved against the state machine. */
module MsgQueue {
  import opened Lists
  import opened MsgqModel

  // ----- Slots of the buffer -----

  lemma MulMonotone(a: nat, b: nat, size: nat)
    requires a <= b
    ensures a * size <= b * size
  {
  }

  /** Slot `i` of the buffer lies inside it. */
  lemma SlotInside(i: nat, max: nat, size: nat)
    requires i < max
    ensures 0 <= i * size && i * size + size <= max * size
    ensures (i + 1) * size == i * size + size
  {
    assert (i + 1) * size <= max * size by {
      MulMonotone(i + 1, max, size);
    }
  }

  lemma SlotsApart(i: nat, j: nat, size: nat)
    requires i != j
    ensures i * size + size <= j * size || j * size + size <= i * size
  {
    if i < j {
      MulMonotone(i + 1, j, size);
    } else {
      MulMonotone(j + 1, i, size);
    }
  }

  /** Where slot `i` ends, wrapped at the end of the buffer. */
  lemma SlotNext(i: nat, max: nat, size: nat)
    requires i < max
    ensures (if i * size + size == max * size then 0 else i * size + size) == (if i + 1 == max then 0 else i + 1) * size
  {
    SlotInside(i, max, size);
    if i + 1 < max {
      SlotInside(i + 1, max, size);
    }
  }

  function Around(r: nat, k: nat, max: nat): nat { if r + k < max then r + k else r + k - max }

  /** The `used` messages from slot `r` on, around the end. */
  function Ring(slots: seq<Msg>, r: nat, used: nat): (ring: seq<Msg>)
    requires used <= |slots| && (used > 0 ==> r < |slots|)
    ensures |ring| == used
  {
    seq(used, k requires 0 <= k < used => slots[Around(r, k, |slots|)])
  }

  lemma RingAppend(slots: seq<Msg>, r: nat, used: nat, msg: Msg)
    requires used < |slots| && r < |slots|
    ensures var w := Around(r, used, |slots|);
      w < |slots| && Ring(slots[w := msg], r, used + 1) == Ring(slots, r, used) + [msg]
  {
  }

  lemma RingTail(slots: seq<Msg>, r: nat, used: nat)
    requires 0 < used <= |slots| && r < |slots|
    ensures Ring(slots, r, used)[0] == slots[r]
    ensures Ring(slots, Around(r, 1, |slots|), used - 1) == Ring(slots, r, used)[1..]
  {
  }

  function Splice(bytes: seq<Byte>, at: nat, msg: Msg): seq<Byte>
    requires at + |msg| <= |bytes|
  {
    bytes[..at] + msg + bytes[at + |msg|..]
  }

  lemma Spliced(bytes: seq<Byte>, at: nat, msg: Msg)
    requires at + |msg| <= |bytes|
    ensures Splice(bytes, at, msg)[at..at + |msg|] == msg
  {
  }

  lemma SplicedApart(bytes: seq<Byte>, at: nat, msg: Msg, a: nat, n: nat)
    requires at + |msg| <= |bytes| && a + n <= |bytes| && (a + n <= at || at + |msg| <= a)
    ensures Splice(bytes, at, msg)[a..a + n] == bytes[a..a + n]
  {
  }

  lemma SpliceIs(before: seq<Byte>, after: seq<Byte>, at: nat, msg: Msg)
    requires at + |msg| <= |before| == |after|
    requires forall k :: at <= k < at + |msg| ==> after[k] == msg[k - at]
    requires forall k :: 0 <= k < |before| && !(at <= k < at + |msg|) ==> after[k] == before[k]
    ensures after == Splice(before, at, msg)
  {
  }

  method CopyIn(buffer: array<Byte>, at: nat, msg: Msg)
    requires at + |msg| <= buffer.Length
    modifies buffer
    ensures buffer[..] == Splice(old(buffer[..]), at, msg)
  {
    for j := 0 to |msg|
      invariant forall k :: at <= k < at + j ==> buffer[k] == msg[k - at]
      invariant forall k :: 0 <= k < buffer.Length && !(at <= k < at + j) ==> buffer[k] == old(buffer[k])
    {
      buffer[at + j] := msg[j];
    }
    SpliceIs(old(buffer[..]), buffer[..], at, msg);
  }

  // ----- The queue -----

  class MsgQ {
    const size: nat
    const max: nat
    const buffer: array<Byte>
    var readPtr: nat
    var writePtr: nat
    var used: nat
    var waiters: seq<Waiter>
    var calls: nat
    ghost var slots: seq<Msg>
    ghost var r: nat
    ghost var w: nat

    ghost predicate SlotIs(i: nat)
      reads this`slots, buffer
      requires i < |slots|
    {
      i * size + size <= buffer.Length && slots[i] == buffer[i * size..i * size + size]
    }

    ghost predicate Valid()
      reads this, buffer
    {
      && buffer.Length == max * size && |slots| == max && used <= max
      && (max > 0 ==> r < max && w == Around(r, used, max))
      && (max == 0 ==> r == 0 && w == 0)
      && readPtr == r * size && writePtr == w * size
      && (forall i: nat :: i < max ==> SlotIs(i))
    }

    /** What the buffer holds, the oldest message first. */
    ghost function Contents(): seq<Msg>
      requires Valid()
      reads this, buffer
    {
      Ring(slots, r, used)
    }

    ghost predicate Refines(s: State)
      reads this, buffer
    {
      && Valid() && Fit(s)
      && s.max == max && s.ring == Contents() && s.waiters == waiters && s.calls == calls
      && (forall i :: 0 <= i < |waiters| && waiters[i].Sender? ==> |waiters[i].msg| == size)
    }

    constructor (size: nat, max: nat)
      ensures Refines(Fresh(max)) && this.size == size && this.max == max && fresh(buffer)
    {
      this.size := size;
      this.max := max;
      var bytes := new Byte[max * size](_ => 0);
      buffer := bytes;
      readPtr, writePtr, used := 0, 0, 0;
      waiters, calls := [], 0;
      slots, r, w := [], 0, 0;
      new;
      forall i: nat | i < max ensures i * size + size <= buffer.Length {
        SlotInside(i, max, size);
      }
      slots := seq(max, i requires 0 <= i < max && i * size + size <= buffer.Length reads buffer => buffer[i * size..i * size + size]);
    }

    /** Copy a message to the write pointer. */
    method Write(msg: Msg)
      requires Valid() && used < max && |msg| == size
      modifies this`slots, buffer
      ensures |slots| == max && slots == old(slots)[w := msg] && forall i: nat :: i < max ==> SlotIs(i)
    {
      hide Splice;
      SlotInside(w, max, size);
      ghost var before, held := buffer[..], slots;
      CopyIn(buffer, writePtr, msg);
      slots := slots[w := msg];
      ghost var after := buffer[..];
      forall i: nat | i < max ensures SlotIs(i) {
        assert old(SlotIs(i));
        ghost var a := i * size;
        assert a + size <= |before| && held[i] == before[a..a + size];
        if i == w {
          Spliced(before, writePtr, msg);
        } else {
          SlotsApart(i, w, size);
          SplicedApart(before, writePtr, msg, a, size);
        }
        assert after[a..a + size] == slots[i];
      }
    }

    /** Copy a message into the buffer and step the write pointer. */
    method Store(msg: Msg)
      requires Valid() && used < max && |msg| == size
      modifies this`writePtr, this`used, this`slots, this`w, buffer
      ensures Valid() && Contents() == old(Contents()) + [msg] && used == old(used) + 1
    {
      RingAppend(slots, r, used, msg);
      SlotNext(w, max, size);
      Write(msg);
      w := if w + 1 == max then 0 else w + 1;
      writePtr := writePtr + size;
      if writePtr == max * size {
        writePtr := 0;
      }
      used := used + 1;
    }

    /** Copy the first message out of the buffer. */
    method Copy() returns (msg: Msg)
      requires Valid() && used > 0
      ensures msg == Contents()[0] && |msg| == size
    {
      SlotInside(r, max, size);
      RingTail(slots, r, used);
      assert SlotIs(r);
      msg := [];
      for j := 0 to size
        invariant |msg| == j && msg == buffer[readPtr..readPtr + j]
      {
        msg := msg + [buffer[readPtr + j]];
      }
    }

    /** Take the first message out. */
    method Fetch() returns (msg: Msg)
      requires Valid() && used > 0
      modifies this`readPtr, this`used, this`r
      ensures Valid() && msg == old(Contents())[0] && Contents() == old(Contents())[1..] && used == old(used) - 1
    {
      msg := Copy();
      RingTail(slots, r, used);
      SlotNext(r, max, size);
      r := if r + 1 == max then 0 else r + 1;
      readPtr := readPtr + size;
      if readPtr == max * size {
        readPtr := 0;
      }
      used := used - 1;
    }
  
    /** Where a waiter of priority `prio` goes. */
    method Search(prio: int) returns (p: nat)
      ensures p == Rank(Prios(waiters), prio)
    {
      p := 0;
      while p < |waiters| && waiters[p].prio <= prio
        invariant p <= |waiters|
        invariant forall i :: 0 <= i < p ==> waiters[i].prio <= prio
      {
        p := p + 1;
      }
    }

    /** Put: the code to return at once, or none and the caller waits; and the receiver that got the message directly. */
    method Put(prio: int, msg: Msg, noWait: bool, ghost s: State) returns (ret: Option<int>, to: Option<nat>)
      requires Refines(s) && |msg| == size
      modifies this`writePtr, this`used, this`slots, this`w, this`waiters, this`calls, buffer
      ensures Refines(MsgqModel.Put(s, prio, msg, noWait))
      ensures ret == if old(used) < max then Some(0) else if noWait then Some(-ENOMSG) else None
      ensures to == if old(used) < max && old(waiters) != [] then Some(old(waiters)[0].id) else None
    {
      to := None;
      var id := calls;
      calls := calls + 1;
      if used < max {
        if waiters != [] {
          to := Some(waiters[0].id);
          waiters := waiters[1..];
        } else {
          Store(msg);
        }
        ret := Some(0);
      } else if noWait {
        ret := Some(-ENOMSG);
      } else {
        var p := Search(prio);
        waiters := InsertAt(waiters, p, Sender(id, prio, msg));
        ret := None;
      }
    }

    /** Get: the code and the message, or none and the caller waits; and the sender whose message took the place. */
    method Get(prio: int, noWait: bool, ghost s: State) returns (ret: Option<int>, msg: Msg, from: Option<nat>)
      requires Refines(s)
      modifies this`writePtr, this`readPtr, this`used, this`slots, this`r, this`w, this`waiters, this`calls, buffer
      ensures Refines(MsgqModel.Get(s, prio, noWait))
      ensures ret == if old(used) > 0 then Some(0) else if noWait then Some(-ENOMSG) else None
      ensures old(used) > 0 ==> msg == s.ring[0]
      ensures from == if old(used) > 0 && old(waiters) != [] then Some(old(waiters)[0].id) else None
    {
      msg, from := [], None;
      var id := calls;
      calls := calls + 1;
      if used > 0 {
        msg := Fetch();
        if waiters != [] {
          var sender := waiters[0];
          from := Some(sender.id);
          waiters := waiters[1..];
          Store(sender.msg);
        }
        ret := Some(0);
      } else if noWait {
        ret := Some(-ENOMSG);
      } else {
        var p := Search(prio);
        waiters := InsertAt(waiters, p, Receiver(id, prio));
        ret := None;
      }
    }

    method Peek() returns (ret: int, msg: Msg)
      requires Valid()
      ensures ret == if used > 0 then 0 else -ENOMSG
      ensures used > 0 ==> msg == Contents()[0]
    {
      ret, msg := -ENOMSG, [];
      if used > 0 {
        msg := Copy();
        ret := 0;
      }
    }

    /** Everyone who waits is woken with an error, and the messages are dropped. */
    method Purge(ghost s: State) returns (woken: seq<Event>)
      requires Refines(s)
      modifies this`readPtr, this`used, this`r, this`waiters
      ensures Refines(MsgqModel.Purge(s))
      ensures woken == Refused(old(waiters))
    {
      woken := [];
      while waiters != []
        invariant woken + Refused(waiters) == Refused(old(waiters))
        invariant readPtr == old(readPtr) && used == old(used) && r == old(r)
        decreases |waiters|
      {
        woken := woken + [Failed(waiters[0].id, -ENOMSG)];
        waiters := waiters[1..];
      }
      used := 0;
      readPtr := writePtr;
      r := w;
    }

    /** A waiter times out. */
    method TimedOut(i: nat, ghost s: State) returns (ret: int)
      requires Refines(s) && i < |waiters|
      modifies this`waiters
      ensures Refines(Timeout(s, i)) && ret == -EAGAIN
    {
      waiters := RemoveAt(waiters, i);
      ret := -EAGAIN;
    }
  }
}
