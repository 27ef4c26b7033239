/** What holds of a timer over every run: what its status counts, and when a periodic timer expires. */
module TimerRuns {
  import opened Lists
  import opened Deadlines
  import opened DeadlineRuns
  import opened TimerModel
  import opened Words

  lemma ExecFired(c: Clock, op: Op, remaining: nat)
    ensures Exec(c, op, remaining).fired == c.fired
  {
  }

  lemma TimesSnoc(s: seq<Inst>, x: Inst, id: nat)
    ensures TimesOf(s + [x], id) == TimesOf(s, id) + (if x.due.id == id then [x.due.at] else [])
  {
    assert (s + [x])[..|s|] == s;
  }

  // ----- The status counts the expiries since it was last cleared -----

  ghost predicate Counts(w: World, id: nat) {
    w.cleared <= |TimesOf(w.clock.fired, id)| && w.status == (|TimesOf(w.clock.fired, id)| - w.cleared) % UINT32
  }

  /** Neither a start nor a read: the status is not cleared. */
  predicate Keeps(act: Act) { act.Other? || act.Stop? }

  lemma DoCounts(w: World, id: nat, act: Act, remaining: nat)
    requires Counts(w, id)
    ensures Counts(Do(w, id, act, remaining), id) && Do(w, id, act, remaining).clock.fired == w.clock.fired
    ensures Keeps(act) ==> Do(w, id, act, remaining).cleared == w.cleared
  {
    hide Exec, TimesOf;
    match act
    case Other(op) => ExecFired(w.clock, op, remaining);
    case Start(duration, _, hw) =>
      ExecFired(w.clock, Cancel(id), remaining);
      ExecFired(Exec(w.clock, Cancel(id), remaining), Arm(id, StoredDuration(duration), hw), remaining);
    case Stop => ExecFired(w.clock, Cancel(id), remaining);
    case Read =>
  }

  ghost predicate AllKeep(acts: seq<Act>) { forall i :: 0 <= i < |acts| ==> Keeps(acts[i]) }

  lemma {:induction false} DoAllCounts(w: World, id: nat, acts: seq<Act>, remaining: nat)
    requires Counts(w, id)
    ensures Counts(DoAll(w, id, acts, remaining), id)
    ensures AllKeep(acts) ==> DoAll(w, id, acts, remaining).cleared == w.cleared
    decreases |acts|
  {
    hide Do, Counts;
    if acts != [] {
      DoCounts(w, id, acts[0], remaining);
      DoAllCounts(Do(w, id, acts[0], remaining), id, acts[1..], remaining);
    }
  }

  lemma OneMore(n: nat, cleared: nat, status: nat)
    requires cleared <= n && status == (n - cleared) % UINT32
    ensures (status + 1) % UINT32 == (n + 1 - cleared) % UINT32
  {
  }

  lemma ExpiredCounts(w: World, id: nat, hw: nat, remaining: nat)
    requires w.clock.pend != [] && w.clock.pend[0].due.id == id && Counts(w, id)
    ensures var u := Expired(w.(clock := FireHead(w.clock)), id, hw, remaining); Counts(u, id) && u.cleared == w.cleared
  {
    hide Exec;
    var c := FireHead(w.clock);
    TimesSnoc(w.clock.fired, w.clock.pend[0], id);
    ExecFired(c, Arm(id, w.period, hw), remaining);
    OneMore(|TimesOf(w.clock.fired, id)|, w.cleared, w.status);
  }

  lemma OtherCounts(w: World, id: nat)
    requires w.clock.pend != [] && w.clock.pend[0].due.id != id && Counts(w, id)
    ensures Counts(w.(clock := FireHead(w.clock)), id)
  {
    TimesSnoc(w.clock.fired, w.clock.pend[0], id);
  }

  lemma FireCounts(w: World, id: nat, until: int, acts: Reactions, lags: Lags)
    requires w.clock.pend != [] && w.clock.pend[0].due.at <= until && Counts(w, id)
    ensures var u := Fire(w, id, until, acts, lags);
      Counts(u, id) && (AllKeep(acts(|w.clock.fired|, w.clock.pend[0].due.id)) ==> u.cleared == w.cleared)
  {
    hide Counts, Expired, DoAll, AllKeep;
    var k, x := |w.clock.fired|, w.clock.pend[0].due;
    var m, r := w.(clock := FireHead(w.clock)), until - x.at;
    if x.id == id {
      ExpiredCounts(w, id, lags(k), r);
      DoAllCounts(Expired(m, id, lags(k), r), id, acts(k, x.id), r);
    } else {
      OtherCounts(w, id);
      DoAllCounts(m, id, acts(k, x.id), r);
    }
  }

  ghost predicate ReactionsKeep(acts: Reactions) { forall k, i :: AllKeep(acts(k, i)) }

  lemma {:induction false} FiresCounts(w: World, id: nat, until: int, acts: Reactions, lags: Lags)
    requires Ordered(w.clock) && Counts(w, id)
    ensures Counts(Fires(w, id, until, acts, lags), id)
    ensures ReactionsKeep(acts) ==> Fires(w, id, until, acts, lags).cleared == w.cleared
    decreases until - w.clock.now, DueNow(w.clock.pend, w.clock.now)
  {
    hide Counts, Fire, Ordered, AllKeep;
    if w.clock.pend != [] && w.clock.pend[0].due.at <= until {
      FireProgress(w, id, until, acts, lags);
      FireCounts(w, id, until, acts, lags);
      FiresCounts(Fire(w, id, until, acts, lags), id, until, acts, lags);
    }
  }

  ghost predicate EventKeeps(e: Happening) {
    match e
    case Now(act) => Keeps(act)
    case Passing(_, acts, _) => ReactionsKeep(acts)
  }

  lemma HappenCounts(w: World, id: nat, e: Happening)
    requires Ordered(w.clock) && Counts(w, id)
    ensures Counts(Happen(w, id, e), id) && (EventKeeps(e) ==> Happen(w, id, e).cleared == w.cleared)
  {
    hide Do, Fires, TimesOf, Keeps, ReactionsKeep, Ordered;
    match e
    case Now(act) => DoCounts(w, id, act, 0);
    case Passing(ticks, acts, lags) => FiresCounts(w, id, w.clock.now + ticks, acts, lags);
  }

  /**
   At every point of every run the status is the number of the timer's expiries since it was last cleared, in 32 bits: by a
   read, or by a start that was not refused.
   */
  lemma {:induction false} StatusRun(w: World, id: nat, es: seq<Happening>)
    requires Ordered(w.clock) && Counts(w, id)
    ensures Counts(Happens(w, id, es), id)
    ensures (forall i :: 0 <= i < |es| ==> EventKeeps(es[i])) ==> Happens(w, id, es).cleared == w.cleared
    decreases |es|
  {
    hide Counts, Happen, Ordered;
    if es != [] {
      HappenOrdered(w, id, es[0]);
      HappenCounts(w, id, es[0]);
      StatusRun(Happen(w, id, es[0]), id, es[1..]);
    }
  }

  lemma CountsAre(w: World, id: nat)
    requires Counts(w, id)
    ensures w.cleared <= |TimesOf(w.clock.fired, id)| && w.status == (|TimesOf(w.clock.fired, id)| - w.cleared) % UINT32
  {
  }

  lemma ClearsNow(w: World, id: nat, act: Act)
    requires Ordered(w.clock) && Counts(w, id) && (act.Read? || (act.Start? && act.duration != K_TICKS_FOREVER))
    ensures var v := Do(w, id, act, 0); Ordered(v.clock) && Counts(v, id) && v.cleared == |TimesOf(w.clock.fired, id)|
  {
    hide Ordered, Counts, Exec, TimesOf;
    HappenOrdered(w, id, Now(act));
    DoCounts(w, id, act, 0);
  }

  /** So a read gives what has expired between the read before it, or the start, and itself. */
  lemma ReadCounts(w: World, id: nat, act: Act, es: seq<Happening>)
    requires Ordered(w.clock) && Counts(w, id) && (act.Read? || (act.Start? && act.duration != K_TICKS_FOREVER))
    requires forall i :: 0 <= i < |es| ==> EventKeeps(es[i])
    ensures Ordered(Do(w, id, act, 0).clock)
    ensures var u := Happens(Do(w, id, act, 0), id, es);
      && |TimesOf(w.clock.fired, id)| <= |TimesOf(u.clock.fired, id)|
      && u.status == (|TimesOf(u.clock.fired, id)| - |TimesOf(w.clock.fired, id)|) % UINT32
  {
    hide Do, Ordered, Counts, Happens, TimesOf, EventKeeps;
    ClearsNow(w, id, act);
    StatusRun(Do(w, id, act, 0), id, es);
    CountsAre(Happens(Do(w, id, act, 0), id, es), id);
  }

  // ----- When a periodic timer expires -----

  /** When the next expiry is due, after |late| of them. */
  function NextBeat(first: int, step: nat, late: seq<nat>): int {
    if late == [] then first else NextBeat(first, step, late[..|late| - 1]) + step + late[|late| - 1]
  }

  function Beats(first: int, step: nat, late: seq<nat>): seq<int> {
    if late == [] then [] else Beats(first, step, late[..|late| - 1]) + [NextBeat(first, step, late[..|late| - 1])]
  }

  lemma BeatsSnoc(first: int, step: nat, late: seq<nat>, lag: nat)
    ensures NextBeat(first, step, late + [lag]) == NextBeat(first, step, late) + step + lag
    ensures Beats(first, step, late + [lag]) == Beats(first, step, late) + [NextBeat(first, step, late)]
  {
    assert (late + [lag])[..|late|] == late;
  }

  /** The timer has a relative period, has expired at its beats since `first` and is linked for the next one. */
  ghost predicate Beating(w: World, id: nat, stored: nat, before: seq<int>, first: int) {
    && w.period == stored && stored >= 1 && Distinct(Erase(w.clock.pend))
    && Due(id, NextBeat(first, stored + 1, w.late)) in Erase(w.clock.pend)
    && TimesOf(w.clock.fired, id) == before + Beats(first, stored + 1, w.late)
  }

  /** Neither a start nor a stop of this timer. */
  predicate Gentle(act: Act) { act.Other? || act.Read? }

  /** An operation on another entry leaves this one's deadline alone. */
  lemma {:induction false} ExecKeeps(c: Clock, op: Op, remaining: nat, d: Due)
    requires Distinct(Erase(c.pend)) && d in Erase(c.pend) && op.id != d.id
    ensures var e := Exec(c, op, remaining); Distinct(Erase(e.pend)) && d in Erase(e.pend) && e.fired == c.fired
  {
    var s := Erase(c.pend);
    EraseExec(c, op, remaining);
    ExecFired(c, op, remaining);
    match op
    case Arm(id, timeout, hw) =>
      if timeout != K_TICKS_FOREVER && !Linked(s, id) {
        PlaceKeeps(s, Due(id, ExpiryOf(c.now, remaining, timeout, hw)));
      }
    case Cancel(id) =>
      DropKeeps(s, id, d);
  }

  lemma DoBeating(w: World, id: nat, act: Act, remaining: nat, stored: nat, before: seq<int>, first: int)
    requires Beating(w, id, stored, before, first) && Gentle(act)
    ensures Beating(Do(w, id, act, remaining), id, stored, before, first) && Do(w, id, act, remaining).late == w.late
  {
    hide Exec, NextBeat, Beats;
    if act.Other? && act.op.id != id {
      ExecKeeps(w.clock, act.op, remaining, Due(id, NextBeat(first, stored + 1, w.late)));
    }
  }

  ghost predicate AllGentle(acts: seq<Act>) { forall i :: 0 <= i < |acts| ==> Gentle(acts[i]) }

  lemma {:induction false} DoAllBeating(w: World, id: nat, acts: seq<Act>, remaining: nat, stored: nat, before: seq<int>, first: int)
    requires Beating(w, id, stored, before, first) && AllGentle(acts)
    ensures Beating(DoAll(w, id, acts, remaining), id, stored, before, first) && DoAll(w, id, acts, remaining).late == w.late
    decreases |acts|
  {
    hide Do, Beating;
    if acts != [] {
      DoBeating(w, id, acts[0], remaining, stored, before, first);
      DoAllBeating(Do(w, id, acts[0], remaining), id, acts[1..], remaining, stored, before, first);
    }
  }

  /** Arming an entry that is not linked. */
  lemma ArmLinks(c: Clock, id: nat, timeout: int, hw: nat, remaining: nat)
    requires Distinct(Erase(c.pend)) && !Linked(Erase(c.pend), id) && timeout != K_TICKS_FOREVER
    ensures var e := Exec(c, Arm(id, timeout, hw), remaining);
      && Distinct(Erase(e.pend)) && Due(id, Wanted(c.now, timeout, Lag(hw, remaining))) in Erase(e.pend) && e.fired == c.fired
  {
    hide Exec, Distinct, Linked, Erase, Place, ExecDues;
    EraseExec(c, Arm(id, timeout, hw), remaining);
    ExecFired(c, Arm(id, timeout, hw), remaining);
    ArmAnswer(c.now, Erase(c.pend), id, timeout, hw, remaining);
  }

  /** The entry at the head is the timer's, due at its next beat. */
  lemma OwnHead(c: Clock, id: nat, next: int)
    requires c.pend != [] && c.pend[0].due.id == id && Distinct(Erase(c.pend)) && Due(id, next) in Erase(c.pend)
    ensures c.pend[0].due == Due(id, next)
    ensures Distinct(Erase(FireHead(c).pend)) && !Linked(Erase(FireHead(c).pend), id)
  {
    var s := Erase(c.pend);
    assert s[0] == c.pend[0].due && forall j :: 0 < j < |s| ==> s[j].id != s[0].id;
    var i :| 0 <= i < |s| && s[i] == Due(id, next);
    EraseTail(c.pend);
    RemoveDistinct(s, 0);
  }

  /** The timer's own expiry: one more beat, and the next one is armed. */
  lemma OwnBeat(w: World, id: nat, hw: nat, remaining: nat, stored: nat, before: seq<int>, first: int)
    requires w.clock.pend != [] && w.clock.pend[0].due.id == id && Beating(w, id, stored, before, first)
    ensures var u := Expired(w.(clock := FireHead(w.clock)), id, hw, remaining);
      Beating(u, id, stored, before, first) && u.late == w.late + [Lag(hw, remaining)]
  {
    hide Exec, Distinct, Linked, Erase, TimesOf, Beats, NextBeat, Lag;
    var next := NextBeat(first, stored + 1, w.late);
    OwnHead(w.clock, id, next);
    ArmLinks(FireHead(w.clock), id, stored, hw, remaining);
    TimesSnoc(w.clock.fired, w.clock.pend[0], id);
    BeatsSnoc(first, stored + 1, w.late, Lag(hw, remaining));
    Associative(before, Beats(first, stored + 1, w.late), [next]);
  }

  lemma OtherBeat(w: World, id: nat, stored: nat, before: seq<int>, first: int)
    requires w.clock.pend != [] && w.clock.pend[0].due.id != id && Beating(w, id, stored, before, first)
    ensures Beating(w.(clock := FireHead(w.clock)), id, stored, before, first)
  {
    hide NextBeat, Beats;
    var c, s := w.clock, Erase(w.clock.pend);
    assert s[0] == c.pend[0].due;
    EraseTail(c.pend);
    RemoveDistinct(s, 0);
    RemoveMember(s, 0, Due(id, NextBeat(first, stored + 1, w.late)));
    TimesSnoc(c.fired, c.pend[0], id);
  }

  lemma FireBeating(w: World, id: nat, until: int, acts: Reactions, lags: Lags, stored: nat, before: seq<int>, first: int)
    requires w.clock.pend != [] && w.clock.pend[0].due.at <= until && Beating(w, id, stored, before, first)
    requires AllGentle(acts(|w.clock.fired|, w.clock.pend[0].due.id))
    ensures Beating(Fire(w, id, until, acts, lags), id, stored, before, first) && w.late <= Fire(w, id, until, acts, lags).late
  {
    hide Beating, Expired, DoAll, AllGentle;
    var k, x := |w.clock.fired|, w.clock.pend[0].due;
    var m, r := w.(clock := FireHead(w.clock)), until - x.at;
    if x.id == id {
      OwnBeat(w, id, lags(k), r, stored, before, first);
      DoAllBeating(Expired(m, id, lags(k), r), id, acts(k, x.id), r, stored, before, first);
    } else {
      OtherBeat(w, id, stored, before, first);
      DoAllBeating(m, id, acts(k, x.id), r, stored, before, first);
    }
  }

  lemma {:induction false} FiresBeating(w: World, id: nat, until: int, acts: Reactions, lags: Lags, stored: nat, before: seq<int>, first: int)
    requires Ordered(w.clock) && Beating(w, id, stored, before, first) && forall k, i :: AllGentle(acts(k, i))
    ensures Beating(Fires(w, id, until, acts, lags), id, stored, before, first) && w.late <= Fires(w, id, until, acts, lags).late
    decreases until - w.clock.now, DueNow(w.clock.pend, w.clock.now)
  {
    hide Beating, Fire, Ordered, AllGentle;
    if w.clock.pend != [] && w.clock.pend[0].due.at <= until {
      FireProgress(w, id, until, acts, lags);
      FireBeating(w, id, until, acts, lags, stored, before, first);
      FiresBeating(Fire(w, id, until, acts, lags), id, until, acts, lags, stored, before, first);
    }
  }

  ghost predicate Peaceful(e: Happening) {
    match e
    case Now(act) => Gentle(act)
    case Passing(_, acts, _) => forall k, i :: AllGentle(acts(k, i))
  }

  lemma HappenBeating(w: World, id: nat, e: Happening, stored: nat, before: seq<int>, first: int)
    requires Ordered(w.clock) && Beating(w, id, stored, before, first) && Peaceful(e)
    ensures Beating(Happen(w, id, e), id, stored, before, first) && w.late <= Happen(w, id, e).late
  {
    hide Ordered, Fires, Do, NextBeat, Beats, TimesOf, Distinct, Erase;
    match e
    case Now(act) => DoBeating(w, id, act, 0, stored, before, first);
    case Passing(ticks, acts, lags) => FiresBeating(w, id, w.clock.now + ticks, acts, lags, stored, before, first);
  }

  lemma {:induction false} RunBeating(w: World, id: nat, es: seq<Happening>, stored: nat, before: seq<int>, first: int)
    requires Ordered(w.clock) && Beating(w, id, stored, before, first) && forall i :: 0 <= i < |es| ==> Peaceful(es[i])
    ensures Beating(Happens(w, id, es), id, stored, before, first) && w.late <= Happens(w, id, es).late
    decreases |es|
  {
    hide Beating, Happen, Ordered, Peaceful;
    if es != [] {
      HappenBeating(w, id, es[0], stored, before, first);
      HappenOrdered(w, id, es[0]);
      RunBeating(Happen(w, id, es[0]), id, es[1..], stored, before, first);
    }
  }

  /** When a timer that is started expires first: at a tick that it names, or after some ticks; never at once. */
  function First(now: int, duration: int, hw: nat): int {
    if duration < K_TICKS_FOREVER then Max(-2 - duration, now + 1) else now + Max(duration, 1) + hw
  }

  /** Starting a timer links it for its first expiry, whatever it was doing before. */
  lemma StartBeating(w: World, id: nat, duration: int, period: nat, hw: nat)
    requires Distinct(Erase(w.clock.pend)) && period >= 1 && duration != K_TICKS_FOREVER
    ensures Beating(Do(w, id, Start(duration, period, hw), 0), id, StoredPeriod(period), TimesOf(w.clock.fired, id),
                    First(w.clock.now, duration, hw))
  {
    var c, d := w.clock, Exec(w.clock, Cancel(id), 0);
    EraseExec(c, Cancel(id), 0);
    ExecFired(c, Cancel(id), 0);
    DropUnlinks(Erase(c.pend), id);
    assert d.now == c.now;
    hide Exec, Distinct, Linked, Erase, TimesOf;
    ArmLinks(d, id, StoredDuration(duration), hw, 0);
    assert Beats(First(c.now, duration, hw), Max(period, 2), []) == [];
    assert TimesOf(c.fired, id) + [] == TimesOf(c.fired, id);
  }

  // ----- From the start of a timer -----

  lemma {:induction false} TimesPast(s: seq<Inst>, id: nat, now: int)
    requires forall i :: 0 <= i < |s| ==> s[i].due.at <= now
    ensures forall i :: 0 <= i < |TimesOf(s, id)| ==> TimesOf(s, id)[i] <= now
  {
    if s != [] {
      TimesPast(s[..|s| - 1], id, now);
    }
  }

  lemma HappensInv(w: World, id: nat, es: seq<Happening>)
    requires Inv(w.clock) && Idle(w.clock) && Ordered(w.clock)
    ensures var c := Happens(w, id, es).clock; Inv(c) && Idle(c) && Ordered(c)
  {
    hide Inv, Idle, Ordered, Happens, Run;
    var ds := HappensAs(w, id, es);
    RunInv(w.clock, ds);
  }

  lemma NextLater(w: World, id: nat, stored: nat, before: seq<int>, first: int)
    requires Beating(w, id, stored, before, first) && Inv(w.clock) && Idle(w.clock)
    ensures w.clock.now < NextBeat(first, stored + 1, w.late)
    ensures forall i :: 0 <= i < |TimesOf(w.clock.fired, id)| ==> TimesOf(w.clock.fired, id)[i] <= w.clock.now
  {
    var c := w.clock;
    var i :| 0 <= i < |c.pend| && Erase(c.pend)[i] == Due(id, NextBeat(first, stored + 1, w.late));
    assert c.pend[i].due.at > c.now;
    TimesPast(c.fired, id, c.now);
  }

  lemma TimesAre(w: World, id: nat, stored: nat, before: seq<int>, first: int)
    requires Beating(w, id, stored, before, first)
    ensures TimesOf(w.clock.fired, id) == before + Beats(first, stored + 1, w.late)
  {
  }

  lemma HappensOne(w: World, id: nat, e: Happening)
    requires Ordered(w.clock)
    ensures Happens(w, id, [e]) == Happen(w, id, e)
  {
    hide Ordered, Happen;
    HappenOrdered(w, id, e);
    assert [e][1..] == [];
  }

  lemma Started(w: World, id: nat, duration: int, period: nat, hw: nat)
    requires Inv(w.clock) && Idle(w.clock) && Ordered(w.clock) && period >= 1 && duration != K_TICKS_FOREVER
    ensures var v := Do(w, id, Start(duration, period, hw), 0);
      && Inv(v.clock) && Idle(v.clock) && Ordered(v.clock)
      && Beating(v, id, Max(period, 2) - 1, TimesOf(w.clock.fired, id), First(w.clock.now, duration, hw))
  {
    StartBeating(w, id, duration, period, hw);
    assert StoredPeriod(period) == Max(period, 2) - 1;
    hide Do, Ordered, Inv, Idle, Beating, Happens;
    HappensInv(w, id, [Now(Start(duration, period, hw))]);
    HappensOne(w, id, Now(Start(duration, period, hw)));
  }

  /**
   However time is cut into announcements and whatever else goes on: a timer that is started with duration d and relative
   period p expires first after max(d, 1) ticks, or at the tick that d names, and then every max(p, 2) ticks, later only by the ticks that had elapsed when it
   was rearmed at the very end of an announcement; at all these ticks up to now and at no other.
   */
  lemma TimerRun(w: World, id: nat, duration: int, period: nat, hw: nat, es: seq<Happening>)
    requires Inv(w.clock) && Idle(w.clock) && Ordered(w.clock) && period >= 1 && duration != K_TICKS_FOREVER
    requires forall i :: 0 <= i < |es| ==> Peaceful(es[i])
    ensures Ordered(Do(w, id, Start(duration, period, hw), 0).clock)
    ensures var first, step := First(w.clock.now, duration, hw), Max(period, 2);
      var u := Happens(Do(w, id, Start(duration, period, hw), 0), id, es);
      && TimesOf(u.clock.fired, id) == TimesOf(w.clock.fired, id) + Beats(first, step, u.late)
      && (forall i :: 0 <= i < |TimesOf(u.clock.fired, id)| ==> TimesOf(u.clock.fired, id)[i] <= u.clock.now)
      && u.clock.now < NextBeat(first, step, u.late)
  {
    hide Do, Ordered, Inv, Idle, Beats, NextBeat, Happens, TimesOf, StoredPeriod, Beating, Peaceful;
    Started(w, id, duration, period, hw);
    var v := Do(w, id, Start(duration, period, hw), 0);
    var stored, first := Max(period, 2) - 1, First(w.clock.now, duration, hw);
    RunBeating(v, id, es, stored, TimesOf(w.clock.fired, id), first);
    HappensInv(v, id, es);
    NextLater(Happens(v, id, es), id, stored, TimesOf(w.clock.fired, id), first);
    TimesAre(Happens(v, id, es), id, stored, TimesOf(w.clock.fired, id), first);
  }

  // ----- Drift -----

  function Sum(s: seq<nat>): nat { if s == [] then 0 else Sum(s[..|s| - 1]) + s[|s| - 1] }

  /** first, first + step, first + 2 * step, ... */
  function Even(first: int, step: nat, n: nat): (r: seq<int>)
    ensures |r| == n && forall k :: 0 <= k < n ==> r[k] == first + k * step
  {
    seq(n, k requires 0 <= k < n => first + k * step)
  }

  lemma {:induction false} NextBeatIs(first: int, step: nat, late: seq<nat>)
    ensures NextBeat(first, step, late) == first + |late| * step + Sum(late)
  {
    if late != [] {
      NextBeatIs(first, step, late[..|late| - 1]);
      assert |late| * step == (|late| - 1) * step + step;
    }
  }

  lemma {:induction false} BeatsAt(first: int, step: nat, late: seq<nat>, k: nat)
    requires k < |late|
    ensures |Beats(first, step, late)| == |late| && Beats(first, step, late)[k] == NextBeat(first, step, late[..k])
  {
    var rest := late[..|late| - 1];
    if k < |rest| {
      BeatsAt(first, step, rest, k);
      assert rest[..k] == late[..k];
    } else if rest != [] {
      BeatsAt(first, step, rest, 0);
    }
  }

  /** Every expiry is late by the sum of what the rearmings before it added. */
  lemma Drift(first: int, step: nat, late: seq<nat>, k: nat)
    requires k < |late|
    ensures |Beats(first, step, late)| == |late| && Beats(first, step, late)[k] == first + k * step + Sum(late[..k])
  {
    BeatsAt(first, step, late, k);
    NextBeatIs(first, step, late[..k]);
  }

  lemma {:induction false} SumZero(s: seq<nat>)
    ensures Sum(s) == 0 <==> forall i :: 0 <= i < |s| ==> s[i] == 0
  {
    if s != [] {
      SumZero(s[..|s| - 1]);
    }
  }

  /** No sum of what came before, up to the last one, is more than 0 if and only if nothing but the last is. */
  lemma SumsZero(late: seq<nat>)
    ensures (forall k :: 0 <= k < |late| ==> Sum(late[..k]) == 0) <==> forall k :: 0 <= k < |late| - 1 ==> late[k] == 0
  {
    hide Sum;
    if forall k :: 0 <= k < |late| - 1 ==> late[k] == 0 {
      forall k | 0 <= k < |late| ensures Sum(late[..k]) == 0 {
        assert forall i :: 0 <= i < k ==> late[..k][i] == late[i];
        SumZero(late[..k]);
      }
    } else {
      var k :| 0 <= k < |late| - 1 && late[k] != 0;
      assert late[..k + 1][k] == late[k];
      SumZero(late[..k + 1]);
    }
  }

  lemma BeatsLength(first: int, step: nat, late: seq<nat>)
    ensures |Beats(first, step, late)| == |late|
  {
    if late != [] {
      BeatsAt(first, step, late, 0);
    }
  }

  lemma EvenIff(first: int, step: nat, late: seq<nat>)
    ensures Beats(first, step, late) == Even(first, step, |late|) <==> forall k :: 0 <= k < |late| - 1 ==> late[k] == 0
  {
    hide Beats, Sum, Even;
    SumsZero(late);
    BeatsLength(first, step, late);
    var a, b := Beats(first, step, late), Even(first, step, |late|);
    forall k | 0 <= k < |late| ensures a[k] == b[k] + Sum(late[..k]) {
      Drift(first, step, late, k);
    }
    if forall k :: 0 <= k < |late| ==> Sum(late[..k]) == 0 {
      assert a == b;
    } else {
      var k :| 0 <= k < |late| && Sum(late[..k]) != 0;
      assert a[k] != b[k];
    }
  }

  /**
   The timer does not drift if and only if no time had elapsed at any of its rearmings at the end of an announcement, the last
   one apart: then it expires at first, first + s, first + 2s, ... with s = max(period, 2).
   */
  lemma NoDrift(w: World, id: nat, duration: int, period: nat, hw: nat, es: seq<Happening>)
    requires Inv(w.clock) && Idle(w.clock) && Ordered(w.clock) && period >= 1 && duration != K_TICKS_FOREVER
    requires forall i :: 0 <= i < |es| ==> Peaceful(es[i])
    ensures Ordered(Do(w, id, Start(duration, period, hw), 0).clock)
    ensures var u := Happens(Do(w, id, Start(duration, period, hw), 0), id, es);
      TimesOf(u.clock.fired, id) ==
        TimesOf(w.clock.fired, id) + Even(First(w.clock.now, duration, hw), Max(period, 2), |u.late|) <==>
      forall k :: 0 <= k < |u.late| - 1 ==> u.late[k] == 0
  {
    hide Do, Ordered, Inv, Idle, Beats, NextBeat, Happens, TimesOf, Peaceful, Even;
    TimerRun(w, id, duration, period, hw, es);
    var u := Happens(Do(w, id, Start(duration, period, hw), 0), id, es);
    var before, first, step := TimesOf(w.clock.fired, id), First(w.clock.now, duration, hw), Max(period, 2);
    EvenIff(first, step, u.late);
    if before + Beats(first, step, u.late) == before + Even(first, step, |u.late|) {
      assert (before + Beats(first, step, u.late))[|before|..] == Beats(first, step, u.late);
      assert (before + Even(first, step, |u.late|))[|before|..] == Even(first, step, |u.late|);
    }
  }

  // ----- What a read counts -----

  lemma {:induction false} NextBeatGrows(first: int, step: nat, late: seq<nat>, n: nat)
    requires n <= |late|
    ensures NextBeat(first, step, late[..n]) <= NextBeat(first, step, late)
    decreases |late|
  {
    if n < |late| {
      var rest := late[..|late| - 1];
      NextBeatGrows(first, step, rest, n);
      assert rest[..n] == late[..n];
    } else {
      assert late[..n] == late;
    }
  }

  lemma BeatsAfter(first: int, step: nat, early: seq<nat>, late: seq<nat>, now: int, k: nat)
    requires early <= late && k < |late| && now < NextBeat(first, step, early)
    requires forall i :: 0 <= i < |Beats(first, step, early)| ==> Beats(first, step, early)[i] <= now
    ensures |Beats(first, step, late)| == |late| && (Beats(first, step, late)[k] > now <==> k >= |early|)
  {
    hide Beats, NextBeat;
    BeatsAt(first, step, late, k);
    if k < |early| {
      BeatsAt(first, step, early, k);
      assert early[..k] == late[..k];
    } else {
      NextBeatGrows(first, step, late[..k], |early|);
      assert late[..k][..|early|] == early;
    }
  }

  lemma ReadSame(w: World, id: nat)
    ensures Do(w, id, Read, 0).clock == w.clock && Do(w, id, Read, 0).late == w.late
  {
  }

  lemma BeatsIn(before: seq<int>, beats: seq<int>, now: int)
    requires forall i :: 0 <= i < |before + beats| ==> (before + beats)[i] <= now
    ensures forall i :: 0 <= i < |beats| ==> beats[i] <= now
  {
    forall i | 0 <= i < |beats| ensures beats[i] <= now {
      assert (before + beats)[|before| + i] == beats[i];
    }
  }

  /**
   Start a timer, read its status and let it run on: the status is then the number of its beats after the read and up to now,
   in 32 bits.
   */
  lemma StatusBeats(w: World, id: nat, duration: int, period: nat, hw: nat, es: seq<Happening>, fs: seq<Happening>)
    requires Inv(w.clock) && Idle(w.clock) && Ordered(w.clock) && Counts(w, id) && period >= 1 && duration != K_TICKS_FOREVER
    requires forall i :: 0 <= i < |es| ==> Peaceful(es[i])
    requires forall i :: 0 <= i < |fs| ==> Peaceful(fs[i]) && EventKeeps(fs[i])
    ensures Ordered(Do(w, id, Start(duration, period, hw), 0).clock)
    ensures var a := Happens(Do(w, id, Start(duration, period, hw), 0), id, es);
      && Ordered(a.clock) && Ordered(Do(a, id, Read, 0).clock)
      && var b := Happens(Do(a, id, Read, 0), id, fs);
         var beats := Beats(First(w.clock.now, duration, hw), Max(period, 2), b.late);
         && |a.late| <= |b.late| == |beats| && b.status == (|b.late| - |a.late|) % UINT32
         && forall k :: 0 <= k < |beats| ==> beats[k] <= b.clock.now && (beats[k] > a.clock.now <==> k >= |a.late|)
  {
    hide Do, Ordered, Inv, Idle, Beats, NextBeat, Happens, TimesOf, Peaceful, Beating, Counts, EventKeeps;
    Started(w, id, duration, period, hw);
    var v := Do(w, id, Start(duration, period, hw), 0);
    var before, stored, first := TimesOf(w.clock.fired, id), Max(period, 2) - 1, First(w.clock.now, duration, hw);
    RunBeating(v, id, es, stored, before, first);
    HappensInv(v, id, es);
    var a := Happens(v, id, es);
    NextLater(a, id, stored, before, first);
    TimesAre(a, id, stored, before, first);
    DoCounts(w, id, Start(duration, period, hw), 0);
    StatusRun(v, id, es);
    ReadCounts(a, id, Read, fs);
    ReadSame(a, id);
    var r := Do(a, id, Read, 0);
    DoBeating(a, id, Read, 0, stored, before, first);
    RunBeating(r, id, fs, stored, before, first);
    HappensInv(r, id, fs);
    var b := Happens(r, id, fs);
    NextLater(b, id, stored, before, first);
    TimesAre(b, id, stored, before, first);
    BeatsLength(first, stored + 1, a.late);
    BeatsLength(first, stored + 1, b.late);
    BeatsIn(before, Beats(first, stored + 1, a.late), a.clock.now);
    BeatsIn(before, Beats(first, stored + 1, b.late), b.clock.now);
    var beats := Beats(first, stored + 1, b.late);
    forall k | 0 <= k < |beats| ensures beats[k] > a.clock.now <==> k >= |a.late| {
      BeatsAfter(first, stored + 1, a.late, b.late, a.clock.now, k);
    }
  }

  // ----- A timer that drifts -----

  /** A clock with one entry, due at `at`, after some expiries. */
  function Single(now: int, id: nat, at: int, armed: seq<Inst>, fired: seq<Inst>): Clock {
    Clock(now, [Inst(Due(id, at), |armed|)], armed + [Inst(Due(id, at), |armed|)], fired, [])
  }

  /**
   The only entry is the timer, due exactly at the end of the announcement: it expires then, and is due again its period and
   the ticks that have elapsed by then later.
   */
  lemma LastTick(now: int, id: nat, ticks: nat, armed: seq<Inst>, fired: seq<Inst>, w: World, acts: Reactions, lags: Lags)
    requires w.clock == Single(now, id, now + ticks, armed, fired) && w.period >= 1 && ticks > 0 && acts(|fired|, id) == []
    ensures Ordered(w.clock)
    ensures var at, x := now + ticks, Inst(Due(id, now + ticks), |armed|);
      var u := Announced(w, id, ticks, acts, lags);
      && u.clock == Single(at, id, at + w.period + 1 + lags(|fired|), armed + [x], fired + [x])
      && u.period == w.period && u.late == w.late + [lags(|fired|)]
  {
    var at, c := now + ticks, w.clock;
    FireProgress(w, id, at, acts, lags);
    var m := FireHead(c);
    assert m.pend == [] && Erase(m.pend) == [];
    var u := Fire(w, id, at, acts, lags);
    assert u.clock == Exec(m, Arm(id, w.period, lags(|fired|)), 0);
    assert Fires(w, id, at, acts, lags) == Fires(u, id, at, acts, lags) == u;
  }

  const QUIET: Reactions := (k, i) => []
  const ONE: Lags := k => 1

  lemma LateStart()
    ensures Ordered(BOOT) && Do(World(BOOT, 0, 0, 0, []), 0, Start(2, 2, 0), 0) == World(Single(0, 0, 2, [], []), 1, 0, 0, [])
  {
    assert Erase([]) == [];
  }

  lemma LateTimes(x: Inst, y: Inst)
    requires x.due == Due(0, 2) && y.due == Due(0, 5)
    ensures TimesOf([x, y], 0) == [2, 5] && Even(2, 2, 2) == [2, 4]
  {
    assert [x, y][..1] == [x] && [x][..0] == [];
    assert TimesOf([x], 0) == [2];
  }

  lemma HappensThree(w: World, id: nat, e: Happening, f: Happening, g: Happening)
    requires Ordered(w.clock)
    ensures var v := Happen(w, id, e); Ordered(v.clock) && Ordered(Happen(v, id, f).clock)
    ensures Happens(w, id, [e, f, g]) == Happen(Happen(Happen(w, id, e), id, f), id, g)
  {
    hide Happen, Ordered;
    var v := Happen(w, id, e);
    HappenOrdered(w, id, e);
    HappenOrdered(v, id, f);
    HappensOne(Happen(v, id, f), id, g);
    assert [e, f, g][1..] == [f, g] && [f, g][1..] == [g];
    assert Happens(v, id, [f, g]) == Happens(Happen(v, id, f), id, [g]);
  }

  /**
   A timer of period 2 is started for 2 ticks.  An announcement is of exactly these, and one more tick has elapsed when the
   handler runs; the next one is of 3 ticks.  The timer has expired at 2 and at 5, not at 2 and at 4.
   */
  lemma Late()
    ensures Ordered(BOOT)
    ensures var u := Happens(World(BOOT, 0, 0, 0, []), 0, [Now(Start(2, 2, 0)), Passing(2, QUIET, ONE), Passing(3, QUIET, ONE)]);
      TimesOf(u.clock.fired, 0) == [2, 5] && Even(2, 2, 2) == [2, 4]
  {
    hide Do, Ordered, TimesOf, Even, Happens, Announced;
    var start, e, f, g := World(BOOT, 0, 0, 0, []), Now(Start(2, 2, 0)), Passing(2, QUIET, ONE), Passing(3, QUIET, ONE);
    LateStart();
    HappensThree(start, 0, e, f, g);
    var v := Happen(start, 0, e);
    LastTick(0, 0, 2, [], [], v, QUIET, ONE);
    var w, x := Happen(v, 0, f), Inst(Due(0, 2), 0);
    assert [] + [x] == [x];
    LastTick(2, 0, 3, [x], [x], w, QUIET, ONE);
    var u, y := Happen(w, 0, g), Inst(Due(0, 5), 1);
    assert u.clock.fired == [x, y];
    LateTimes(x, y);
  }
}
