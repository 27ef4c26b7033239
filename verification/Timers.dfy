/** The timer operations of kernel/timer.c on the delta list of the timeout queue, proved against the state machine. */
module Timers {
  import opened Deadlines
  import opened DeadlineRuns
  import opened TimerModel
  import opened Words
  import Q = TimeoutQueue

  lemma ExecRefines(q: Q.TimeoutQueue, c: Clock, op: Op)
    requires q.Valid() && q.currTick == c.now && q.View() == ExecDues(c.now, Erase(c.pend), op, q.announceRemaining)
    ensures q.Refines(Exec(c, op, q.announceRemaining))
  {
    EraseExec(c, op, q.announceRemaining);
    Q.ExecNow(c, op, q.announceRemaining);
  }

  /** After its entry has expired, a timer is not linked. */
  lemma HeadUnlinked(c: Clock)
    requires Inv(c) && c.pend != []
    ensures Inv(FireHead(c)) && !Linked(Erase(FireHead(c).pend), c.pend[0].due.id)
  {
    FireHeadInv(c);
    EraseTail(c.pend);
    RemoveDistinct(Erase(c.pend), 0);
    assert Erase(c.pend)[0] == c.pend[0].due;
    hide Inv, Distinct, Linked;
  }

  lemma DoInv(w: World, id: nat, act: Act, remaining: nat)
    requires Inv(w.clock)
    ensures Inv(Do(w, id, act, remaining).clock)
  {
    hide Inv, Do;
    DoClock(w, id, act, remaining);
    ExecAllInv(w.clock, Ops(id, act), remaining);
  }

  lemma ExpiredInv(w: World, id: nat, hw: nat, remaining: nat)
    requires Inv(w.clock)
    ensures Inv(Expired(w, id, hw, remaining).clock)
  {
    hide Inv, Exec;
    ExecInv(w.clock, Arm(id, w.period, hw), remaining);
  }

  lemma FireInv(w: World, id: nat, until: int, acts: Reactions, lags: Lags)
    requires Inv(w.clock) && Ordered(w.clock) && w.clock.pend != [] && w.clock.pend[0].due.at <= until
    ensures Inv(Fire(w, id, until, acts, lags).clock)
  {
    hide Inv, Ordered, Fire, FireOne, FireOps;
    var ops := FireOps(w, id, acts, lags);
    var h: Handlers := (k, i) => ops;
    FireClock(w, id, until, acts, lags, h);
    FireOneInv(w.clock, until, h);
  }

  lemma PendDistinct(c: Clock)
    requires Inv(c)
    ensures Distinct(Erase(c.pend))
  {
  }

  class Timer {
    const id: nat
    var period: int
    var status: nat

    /** Timer and queue stand for the state `w`. */
    ghost predicate Refines(q: Q.TimeoutQueue, w: World)
      reads this, q
    {
      q.Refines(w.clock) && period == w.period && status == w.status
    }

    constructor (id: nat)
      ensures this.id == id && status == 0 && period == 0
    {
      this.id, period, status := id, 0, 0;
    }

    /** z_impl_k_timer_start() */
    method Start(q: Q.TimeoutQueue, duration: int, period: int, hw: nat, ghost w: World)
      requires Refines(q, w) && Inv(w.clock)
      modifies this, q`list
      ensures Refines(q, Do(w, id, Act.Start(duration, period, hw), q.announceRemaining))
    {
      if duration == K_TICKS_FOREVER {
        return;
      }
      PendDistinct(w.clock);
      DropUnlinks(Erase(w.clock.pend), id);
      hide Inv, Exec, Linked, Distinct;
      var ret := q.Abort(id);
      ExecRefines(q, w.clock, Cancel(id));
      ghost var c := Exec(w.clock, Cancel(id), q.announceRemaining);
      this.period := StoredPeriod(period);
      status := 0;
      q.Add(id, StoredDuration(duration), hw);
      ExecRefines(q, c, Arm(id, StoredDuration(duration), hw));
    }

    /** z_impl_k_timer_stop(): true if the timer was running. */
    method Stop(q: Q.TimeoutQueue, ghost w: World) returns (active: bool)
      requires Refines(q, w)
      modifies q`list
      ensures Refines(q, Do(w, id, Act.Stop, q.announceRemaining))
      ensures active <==> Linked(Erase(w.clock.pend), id)
      ensures Distinct(Erase(w.clock.pend)) ==> !Linked(q.View(), id)
    {
      if Distinct(Erase(w.clock.pend)) {
        CancelAnswer(w.clock.now, Erase(w.clock.pend), id, q.announceRemaining);
      }
      var ret := q.Abort(id);
      ExecRefines(q, w.clock, Cancel(id));
      active := ret == 0;
    }

    /** z_impl_k_timer_status_get() */
    method StatusGet(q: Q.TimeoutQueue, ghost w: World) returns (result: nat)
      requires Refines(q, w)
      modifies this`status
      ensures Refines(q, Do(w, id, Read, q.announceRemaining)) && result == w.status
    {
      result := status;
      status := 0;
    }

    /** z_timer_expiration_handler(), up to the expiry function */
    method Expire(q: Q.TimeoutQueue, hw: nat, ghost w: World)
      requires Refines(q, w) && !Linked(Erase(w.clock.pend), id)
      modifies this`status, q`list
      ensures Refines(q, Expired(w, id, hw, q.announceRemaining))
    {
      hide Exec, Linked;
      if period != K_NO_WAIT && period != K_TICKS_FOREVER {
        q.Add(id, period, hw);
        ExecRefines(q, w.clock, Arm(id, period, hw));
      }
      status := (status + 1) % UINT32;
    }

    method Perform(q: Q.TimeoutQueue, act: Act, ghost w: World)
      requires Refines(q, w) && Inv(w.clock)
      modifies this, q`list
      ensures Refines(q, Do(w, id, act, q.announceRemaining))
    {
      match act
      case Other(op) =>
        if op.id != id {
          ExecOne(w.clock, op, q.announceRemaining);
          q.Perform([op], w.clock);
        }
      case Start(duration, period, hw) => Start(q, duration, period, hw, w);
      case Stop => var active := Stop(q, w);
      case Read => var result := StatusGet(q, w);
    }

    /** What an expiry function, or anyone else, does. */
    method PerformAll(q: Q.TimeoutQueue, acts: seq<Act>, ghost w: World)
      requires Refines(q, w) && Inv(w.clock)
      modifies this, q`list
      ensures Refines(q, DoAll(w, id, acts, q.announceRemaining))
    {
      hide Inv, Do, Refines;
      ghost var u := w;
      var i := 0;
      assert acts[0..] == acts;
      while i < |acts|
        invariant 0 <= i <= |acts| && Refines(q, u) && Inv(u.clock)
        invariant DoAll(w, id, acts, q.announceRemaining) == DoAll(u, id, acts[i..], q.announceRemaining)
      {
        Perform(q, acts[i], u);
        DoInv(u, id, acts[i], q.announceRemaining);
        u := Do(u, id, acts[i], q.announceRemaining);
        assert acts[i..][1..] == acts[i + 1..];
        i := i + 1;
      }
    }

    /** The handler of the entry that has just been taken off the queue. */
    method Handle(q: Q.TimeoutQueue, x: nat, acts: seq<Act>, lag: nat, ghost m: World)
      requires Refines(q, m) && Inv(m.clock) && !Linked(Erase(m.clock.pend), x)
      modifies this, q`list
      ensures Refines(q, DoAll(if x == id then Expired(m, id, lag, q.announceRemaining) else m, id, acts, q.announceRemaining))
    {
      hide Inv, DoAll, Expired, Linked, Erase, Refines;
      if x == id {
        ExpiredInv(m, id, lag, q.announceRemaining);
        Expire(q, lag, m);
        PerformAll(q, acts, Expired(m, id, lag, q.announceRemaining));
      } else {
        PerformAll(q, acts, m);
      }
    }

    /** One round of an announcement: the timer's own expiry or another entry's, and what the handler does. */
    method Round(q: Q.TimeoutQueue, acts: Reactions, lags: Lags, calls: nat, ghost w: World, ghost until: int)
      requires Refines(q, w) && Inv(w.clock) && calls == |w.clock.fired|
      requires q.list != [] && q.list[0].dticks <= q.announceRemaining == until - q.currTick
      modifies this, q
      ensures w.clock.pend != [] && w.clock.pend[0].due.at <= until && q.announceRemaining == until - q.currTick
      ensures Refines(q, Fire(w, id, until, acts, lags))
    {
      hide Inv, DoAll, Expired, Linked, Erase, Q.Dues;
      Q.HeadDue(q.currTick, q.list, w.clock);
      HeadUnlinked(w.clock);
      var x := q.TakeHead(w.clock);
      Handle(q, x, acts(calls, x), lags(calls), w.(clock := FireHead(w.clock)));
    }

    /** sys_clock_announce() with this timer among the entries. */
    method Announce(q: Q.TimeoutQueue, ticks: nat, acts: Reactions, lags: Lags, calls: nat, ghost w: World)
      requires Refines(q, w) && Inv(w.clock) && Ordered(w.clock) && q.announceRemaining == 0 && calls == |w.clock.fired|
      modifies this, q
      ensures Refines(q, Announced(w, id, ticks, acts, lags)) && q.announceRemaining == 0
    {
      q.announceRemaining := ticks;
      var k := calls;
      ghost var u, until := w, q.currTick + ticks;
      while q.list != [] && q.list[0].dticks <= q.announceRemaining
        invariant Refines(q, u) && Inv(u.clock) && Ordered(u.clock) && q.announceRemaining == until - q.currTick
        invariant k == |u.clock.fired|
        invariant Fires(w, id, until, acts, lags) == Fires(u, id, until, acts, lags)
        decreases until - u.clock.now, DueNow(u.clock.pend, u.clock.now)
      {
        Round(q, acts, lags, k, u, until);
        FireProgress(u, id, until, acts, lags);
        FireInv(u, id, until, acts, lags);
        u := Fire(u, id, until, acts, lags);
        k := k + 1;
      }
      if q.list != [] {
        Q.HeadDue(q.currTick, q.list, u.clock);
      }
      q.Finish();
    }
  }
}
