/** Timers that are stopped, and timers that expire once (kernel/timer.c), over every run. */
module TimerStops {
  import opened Deadlines
  import opened DeadlineRuns
  import opened TimerModel
  import opened TimerRuns

  // ----- Stopped -----

  /** The timer is not linked, and has expired at these ticks. */
  ghost predicate Silent(w: World, id: nat, times: seq<int>) {
    Distinct(Erase(w.clock.pend)) && !Linked(Erase(w.clock.pend), id) && TimesOf(w.clock.fired, id) == times
  }

  /** Stopping a timer unlinks it, whatever it was doing, and leaves every other deadline alone. */
  lemma StopAnswer(w: World, id: nat, remaining: nat)
    requires Distinct(Erase(w.clock.pend))
    ensures var u := Do(w, id, Stop, remaining);
      && Silent(u, id, TimesOf(w.clock.fired, id)) && u == w.(clock := u.clock) && u.clock.now == w.clock.now
      && forall d :: d in Erase(u.clock.pend) <==> d in Erase(w.clock.pend) && d.id != id
  {
    EraseExec(w.clock, Cancel(id), remaining);
    ExecFired(w.clock, Cancel(id), remaining);
    assert Exec(w.clock, Cancel(id), remaining).now == w.clock.now;
    hide Exec, Erase, Distinct, Linked, TimesOf, ExecDues;
    CancelAnswer(w.clock.now, Erase(w.clock.pend), id, remaining);
  }

  lemma StaysUnlinked(s: seq<Due>, r: seq<Due>, id: nat)
    requires !Linked(s, id) && forall d :: d in r ==> d in s || d.id != id
    ensures !Linked(r, id)
  {
    forall i | 0 <= i < |r| ensures r[i].id != id {
      assert r[i] in r;
    }
  }

  /** An operation on another entry does not link this one. */
  lemma OtherSilent(w: World, id: nat, op: Op, remaining: nat, times: seq<int>)
    requires Silent(w, id, times) && op.id != id
    ensures Silent(w.(clock := Exec(w.clock, op, remaining)), id, times)
  {
    var s := Erase(w.clock.pend);
    EraseExec(w.clock, op, remaining);
    ExecFired(w.clock, op, remaining);
    hide Exec, Erase, Distinct, TimesOf, ExecDues, Linked;
    match op {
      case Arm(x, timeout, hw) => ArmAnswer(w.clock.now, s, x, timeout, hw, remaining);
      case Cancel(x) => CancelAnswer(w.clock.now, s, x, remaining);
    }
    StaysUnlinked(s, ExecDues(w.clock.now, s, op, remaining), id);
  }

  lemma DoSilent(w: World, id: nat, act: Act, remaining: nat, times: seq<int>)
    requires Silent(w, id, times) && !act.Start?
    ensures Silent(Do(w, id, act, remaining), id, times)
  {
    match act
    case Other(op) =>
      if op.id != id {
        OtherSilent(w, id, op, remaining, times);
      }
    case Stop => StopAnswer(w, id, remaining);
    case Read =>
  }

  ghost predicate NoneStarts(acts: seq<Act>) { forall i :: 0 <= i < |acts| ==> !acts[i].Start? }

  lemma {:induction false} DoAllSilent(w: World, id: nat, acts: seq<Act>, remaining: nat, times: seq<int>)
    requires Silent(w, id, times) && NoneStarts(acts)
    ensures Silent(DoAll(w, id, acts, remaining), id, times)
    decreases |acts|
  {
    hide Do, Silent;
    if acts != [] {
      DoSilent(w, id, acts[0], remaining, times);
      DoAllSilent(Do(w, id, acts[0], remaining), id, acts[1..], remaining, times);
    }
  }

  /** Somebody else expires. */
  lemma HeadSilent(w: World, id: nat, times: seq<int>)
    requires Silent(w, id, times) && w.clock.pend != []
    ensures w.clock.pend[0].due.id != id && Silent(w.(clock := FireHead(w.clock)), id, times)
  {
    var c, s := w.clock, Erase(w.clock.pend);
    assert s[0] == c.pend[0].due;
    EraseTail(c.pend);
    RemoveDistinct(s, 0);
    TimesSnoc(c.fired, c.pend[0], id);
  }

  lemma {:induction false} FiresSilent(w: World, id: nat, until: int, acts: Reactions, lags: Lags, times: seq<int>)
    requires Ordered(w.clock) && Silent(w, id, times) && forall k, i :: NoneStarts(acts(k, i))
    ensures Silent(Fires(w, id, until, acts, lags), id, times)
    decreases until - w.clock.now, DueNow(w.clock.pend, w.clock.now)
  {
    hide Ordered, Silent, NoneStarts, DoAll, Expired;
    var c := w.clock;
    if c.pend != [] && c.pend[0].due.at <= until {
      FireProgress(w, id, until, acts, lags);
      HeadSilent(w, id, times);
      DoAllSilent(w.(clock := FireHead(c)), id, acts(|c.fired|, c.pend[0].due.id), until - c.pend[0].due.at, times);
      FiresSilent(Fire(w, id, until, acts, lags), id, until, acts, lags, times);
    }
  }

  /** Nobody starts this timer. */
  ghost predicate Startless(e: Happening) {
    match e
    case Now(act) => !act.Start?
    case Passing(_, acts, _) => forall k, i :: NoneStarts(acts(k, i))
  }

  lemma HappenSilent(w: World, id: nat, e: Happening, times: seq<int>)
    requires Ordered(w.clock) && Silent(w, id, times) && Startless(e)
    ensures Silent(Happen(w, id, e), id, times)
  {
    hide Ordered, Fires, Do, TimesOf, Distinct, Erase, Linked;
    match e
    case Now(act) => DoSilent(w, id, act, 0, times);
    case Passing(ticks, acts, lags) => FiresSilent(w, id, w.clock.now + ticks, acts, lags, times);
  }

  lemma {:induction false} SilentRun(w: World, id: nat, es: seq<Happening>, times: seq<int>)
    requires Ordered(w.clock) && Silent(w, id, times) && forall i :: 0 <= i < |es| ==> Startless(es[i])
    ensures Silent(Happens(w, id, es), id, times)
    decreases |es|
  {
    hide Silent, Happen, Ordered, Startless;
    if es != [] {
      HappenSilent(w, id, es[0], times);
      HappenOrdered(w, id, es[0]);
      SilentRun(Happen(w, id, es[0]), id, es[1..], times);
    }
  }

  /** A timer that is stopped does not expire again, over every run in which nobody starts it. */
  lemma StoppedRun(w: World, id: nat, es: seq<Happening>)
    requires Inv(w.clock) && Ordered(w.clock) && forall i :: 0 <= i < |es| ==> Startless(es[i])
    ensures Ordered(Do(w, id, Stop, 0).clock)
    ensures TimesOf(Happens(Do(w, id, Stop, 0), id, es).clock.fired, id) == TimesOf(w.clock.fired, id)
  {
    StopAnswer(w, id, 0);
    HappenOrdered(w, id, Now(Stop));
    hide Do, Inv, Ordered, Startless, Happens;
    SilentRun(Do(w, id, Stop, 0), id, es, TimesOf(w.clock.fired, id));
  }

  lemma DoAllOne(w: World, id: nat, act: Act, remaining: nat)
    ensures DoAll(w, id, [act], remaining) == Do(w, id, act, remaining)
  {
    hide Do;
    assert [act][1..] == [];
  }

  lemma ExpiredDistinct(w: World, id: nat, hw: nat, remaining: nat)
    requires Distinct(Erase(w.clock.pend))
    ensures var u := Expired(w, id, hw, remaining); Distinct(Erase(u.clock.pend)) && u.clock.fired == w.clock.fired
  {
    hide Exec, Distinct, Linked, Erase, ExecDues;
    EraseExec(w.clock, Arm(id, w.period, hw), remaining);
    ExecFired(w.clock, Arm(id, w.period, hw), remaining);
    ArmAnswer(w.clock.now, Erase(w.clock.pend), id, w.period, hw, remaining);
  }

  lemma FireStops(w: World, id: nat, until: int, acts: Reactions, lags: Lags)
    requires Inv(w.clock) && w.clock.pend != [] && w.clock.pend[0].due.at <= until
    requires acts(|w.clock.fired|, w.clock.pend[0].due.id) == [Stop]
    ensures Silent(Fire(w, id, until, acts, lags), id, TimesOf(w.clock.fired + [w.clock.pend[0]], id))
  {
    hide InOrder, Accounted, Stamped, Distinct, Erase, Linked, TimesOf, Expired, Do, DoAll, Silent;
    var c, k, x := w.clock, |w.clock.fired|, w.clock.pend[0].due;
    FireHeadInv(c);
    var m, r := w.(clock := FireHead(c)), until - x.at;
    ExpiredDistinct(m, id, lags(k), r);
    var a := if x.id == id then Expired(m, id, lags(k), r) else m;
    DoAllOne(a, id, Stop, r);
    StopAnswer(a, id, r);
  }

  /** A timer that a handler stops, its own included, does not expire again: what was rearmed for it is gone. */
  lemma StoppedByHandler(w: World, id: nat, until: int, acts: Reactions, lags: Lags)
    requires Inv(w.clock) && Ordered(w.clock) && w.clock.pend != [] && w.clock.pend[0].due.at <= until
    requires acts(|w.clock.fired|, w.clock.pend[0].due.id) == [Stop] && forall k, i :: NoneStarts(acts(k, i))
    ensures TimesOf(Fires(w, id, until, acts, lags).clock.fired, id) == TimesOf(w.clock.fired + [w.clock.pend[0]], id)
  {
    var times := TimesOf(w.clock.fired + [w.clock.pend[0]], id);
    hide Inv, NoneStarts, Distinct, Erase, Linked, TimesOf, Ordered, Fire;
    FireStops(w, id, until, acts, lags);
    FireProgress(w, id, until, acts, lags);
    FiresSilent(Fire(w, id, until, acts, lags), id, until, acts, lags, times);
  }

  // ----- Started -----

  lemma StartForever(w: World, id: nat, period: int, hw: nat)
    ensures Do(w, id, Start(K_TICKS_FOREVER, period, hw), 0) == w
  {
  }

  lemma StartDues(w: World, id: nat, duration: int, period: int, hw: nat)
    requires duration != K_TICKS_FOREVER
    ensures var u, now := Do(w, id, Start(duration, period, hw), 0), w.clock.now;
      && u.status == 0 && u.period == StoredPeriod(period) && u.clock.fired == w.clock.fired
      && Erase(u.clock.pend) ==
           ExecDues(now, ExecDues(now, Erase(w.clock.pend), Cancel(id), 0), Arm(id, StoredDuration(duration), hw), 0)
  {
    hide Erase, ExecDues, TimesOf, Linked, FindDue;
    var c := w.clock;
    var d := Exec(c, Cancel(id), 0);
    assert d.now == c.now;
    hide Exec;
    EraseExec(c, Cancel(id), 0);
    ExecFired(c, Cancel(id), 0);
    EraseExec(d, Arm(id, StoredDuration(duration), hw), 0);
    ExecFired(d, Arm(id, StoredDuration(duration), hw), 0);
  }

  /**
   A start with no end is refused.  Any other links the timer for its first expiry only, clears the status, keeps the period less
   the tick that arming adds, and leaves every other deadline alone.
   */
  lemma StartAnswer(w: World, id: nat, duration: int, period: int, hw: nat)
    requires Distinct(Erase(w.clock.pend))
    ensures var u := Do(w, id, Start(duration, period, hw), 0);
      if duration == K_TICKS_FOREVER then u == w
      else
        && u.status == 0 && u.period == (if period > 0 then Max(period, 2) - 1 else period) && u.clock.fired == w.clock.fired
        && forall d :: d in Erase(u.clock.pend) <==>
             (d in Erase(w.clock.pend) && d.id != id) || d == Due(id, First(w.clock.now, duration, hw))
  {
    hide Do, Distinct, Linked, Erase, ExecDues, TimesOf;
    if duration == K_TICKS_FOREVER {
      StartForever(w, id, period, hw);
    } else {
      var s, now := Erase(w.clock.pend), w.clock.now;
      StartDues(w, id, duration, period, hw);
      CancelAnswer(now, s, id, 0);
      ArmAnswer(now, ExecDues(now, s, Cancel(id), 0), id, StoredDuration(duration), hw, 0);
    }
  }

  // ----- Once -----

  /** The timer has no period; it is linked for its only expiry, or has had it. */
  ghost predicate Once(w: World, id: nat, before: seq<int>, first: int) {
    && !Periodic(w.period)
    && (Silent(w, id, before + [first]) ||
        (Distinct(Erase(w.clock.pend)) && Due(id, first) in Erase(w.clock.pend) && TimesOf(w.clock.fired, id) == before))
  }

  lemma DoOnce(w: World, id: nat, act: Act, remaining: nat, before: seq<int>, first: int)
    requires Once(w, id, before, first) && Gentle(act)
    ensures Once(Do(w, id, act, remaining), id, before, first)
  {
    hide Exec, Erase, Distinct, Linked, TimesOf;
    if Silent(w, id, before + [first]) {
      DoSilent(w, id, act, remaining, before + [first]);
    } else if act.Other? && act.op.id != id {
      ExecKeeps(w.clock, act.op, remaining, Due(id, first));
    }
  }

  lemma {:induction false} DoAllOnce(w: World, id: nat, acts: seq<Act>, remaining: nat, before: seq<int>, first: int)
    requires Once(w, id, before, first) && AllGentle(acts)
    ensures Once(DoAll(w, id, acts, remaining), id, before, first)
    decreases |acts|
  {
    hide Do, Once;
    if acts != [] {
      DoOnce(w, id, acts[0], remaining, before, first);
      DoAllOnce(Do(w, id, acts[0], remaining), id, acts[1..], remaining, before, first);
    }
  }

  lemma HeadOnce(w: World, id: nat, hw: nat, remaining: nat, before: seq<int>, first: int)
    requires w.clock.pend != [] && Once(w, id, before, first)
    ensures var m := w.(clock := FireHead(w.clock));
      Once(if w.clock.pend[0].due.id == id then Expired(m, id, hw, remaining) else m, id, before, first)
  {
    var c, s := w.clock, Erase(w.clock.pend);
    TimesSnoc(c.fired, c.pend[0], id);
    if Silent(w, id, before + [first]) {
      HeadSilent(w, id, before + [first]);
    } else if c.pend[0].due.id == id {
      OwnHead(c, id, first);
    } else {
      assert s[0] == c.pend[0].due;
      EraseTail(c.pend);
      RemoveDistinct(s, 0);
      RemoveMember(s, 0, Due(id, first));
    }
    hide Erase, Distinct, Linked, TimesOf;
  }

  lemma {:induction false} FiresOnce(w: World, id: nat, until: int, acts: Reactions, lags: Lags, before: seq<int>, first: int)
    requires Ordered(w.clock) && Once(w, id, before, first) && forall k, i :: AllGentle(acts(k, i))
    ensures Once(Fires(w, id, until, acts, lags), id, before, first)
    decreases until - w.clock.now, DueNow(w.clock.pend, w.clock.now)
  {
    hide Ordered, Once, AllGentle, DoAll, Expired;
    var c := w.clock;
    if c.pend != [] && c.pend[0].due.at <= until {
      FireProgress(w, id, until, acts, lags);
      var k, x := |c.fired|, c.pend[0].due;
      var m, r := w.(clock := FireHead(c)), until - x.at;
      HeadOnce(w, id, lags(k), r, before, first);
      DoAllOnce(if x.id == id then Expired(m, id, lags(k), r) else m, id, acts(k, x.id), r, before, first);
      FiresOnce(Fire(w, id, until, acts, lags), id, until, acts, lags, before, first);
    }
  }

  lemma HappenOnce(w: World, id: nat, e: Happening, before: seq<int>, first: int)
    requires Ordered(w.clock) && Once(w, id, before, first) && Peaceful(e)
    ensures Once(Happen(w, id, e), id, before, first)
  {
    hide Ordered, Fires, Do, TimesOf, Distinct, Erase, Linked;
    match e
    case Now(act) => DoOnce(w, id, act, 0, before, first);
    case Passing(ticks, acts, lags) => FiresOnce(w, id, w.clock.now + ticks, acts, lags, before, first);
  }

  lemma {:induction false} OnceRun(w: World, id: nat, es: seq<Happening>, before: seq<int>, first: int)
    requires Ordered(w.clock) && Once(w, id, before, first) && forall i :: 0 <= i < |es| ==> Peaceful(es[i])
    ensures Once(Happens(w, id, es), id, before, first)
    decreases |es|
  {
    hide Once, Happen, Ordered, Peaceful;
    if es != [] {
      HappenOnce(w, id, es[0], before, first);
      HappenOrdered(w, id, es[0]);
      OnceRun(Happen(w, id, es[0]), id, es[1..], before, first);
    }
  }

  lemma StartOnce(w: World, id: nat, duration: int, period: int, hw: nat)
    requires Distinct(Erase(w.clock.pend)) && duration != K_TICKS_FOREVER && (period == 0 || period == K_TICKS_FOREVER)
    ensures Once(Do(w, id, Start(duration, period, hw), 0), id, TimesOf(w.clock.fired, id), First(w.clock.now, duration, hw))
  {
    var c, d := w.clock, Exec(w.clock, Cancel(id), 0);
    EraseExec(c, Cancel(id), 0);
    ExecFired(c, Cancel(id), 0);
    DropUnlinks(Erase(c.pend), id);
    assert d.now == c.now;
    hide Exec, Distinct, Linked, Erase, TimesOf;
    ArmLinks(d, id, StoredDuration(duration), hw, 0);
  }

  lemma OnceDue(w: World, id: nat, before: seq<int>, first: int)
    requires Inv(w.clock) && Idle(w.clock) && Once(w, id, before, first)
    ensures TimesOf(w.clock.fired, id) == before + (if first <= w.clock.now then [first] else [])
  {
    var c := w.clock;
    if Silent(w, id, before + [first]) {
      TimesPast(c.fired, id, c.now);
      assert (before + [first])[|before|] == first;
    } else {
      var i :| 0 <= i < |c.pend| && Erase(c.pend)[i] == Due(id, first);
      assert c.pend[i].due.at > c.now;
      assert before + [] == before;
    }
  }

  /**
   A timer that is started without a period expires exactly once, at the tick that it was started for: not before that tick has
   been announced, and never again.
   */
  lemma OneShot(w: World, id: nat, duration: int, period: int, hw: nat, es: seq<Happening>)
    requires Inv(w.clock) && Idle(w.clock) && Ordered(w.clock)
    requires duration != K_TICKS_FOREVER && (period == 0 || period == K_TICKS_FOREVER)
    requires forall i :: 0 <= i < |es| ==> Peaceful(es[i])
    ensures Ordered(Do(w, id, Start(duration, period, hw), 0).clock)
    ensures var u, first := Happens(Do(w, id, Start(duration, period, hw), 0), id, es), First(w.clock.now, duration, hw);
      TimesOf(u.clock.fired, id) == TimesOf(w.clock.fired, id) + (if first <= u.clock.now then [first] else [])
  {
    StartOnce(w, id, duration, period, hw);
    hide Do, Ordered, Inv, Idle, Once, Happens, Peaceful, TimesOf;
    var v := Do(w, id, Start(duration, period, hw), 0);
    HappensInv(w, id, [Now(Start(duration, period, hw))]);
    HappensOne(w, id, Now(Start(duration, period, hw)));
    OnceRun(v, id, es, TimesOf(w.clock.fired, id), First(w.clock.now, duration, hw));
    HappensInv(v, id, es);
    OnceDue(Happens(v, id, es), id, TimesOf(w.clock.fired, id), First(w.clock.now, duration, hw));
  }
}
