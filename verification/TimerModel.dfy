/**
 One kernel timer (kernel/timer.c) on the timeout queue, as a state machine: what its users, its own expiry and everybody
 else's handlers do to it and to the queue.
 */
module TimerModel {
  import opened Deadlines
  import opened DeadlineRuns
  import opened Words

  function Max(a: int, b: int): int { if a > b then a else b }

  /** k_timer_start() takes one tick off relative times, because arming adds one. */
  function StoredPeriod(period: int): int {
    if period != K_TICKS_FOREVER && period != 0 && TickAbs(period) < 0 then Max(period - 1, 1) else period
  }

  function StoredDuration(duration: int): int {
    if TickAbs(duration) < 0 then Max(duration - 1, 0) else duration
  }

  predicate Periodic(stored: int) { stored != K_NO_WAIT && stored != K_TICKS_FOREVER }

  /** The ticks at which an entry expired. */
  function TimesOf(s: seq<Inst>, id: nat): seq<int> {
    if s == [] then [] else
      TimesOf(s[..|s| - 1], id) + (if s[|s| - 1].due.id == id then [s[|s| - 1].due.at] else [])
  }

  /**
   The queue, and the timer's period and status.  History: how often the timer had expired when the status was last cleared,
   and the elapsed ticks that each rearming since the last start has added.
   */
  datatype World = World(clock: Clock, period: int, status: nat, cleared: nat, late: seq<nat>)

  /** What anyone may do: something to another entry, or k_timer_start(), k_timer_stop() and k_timer_status_get(). */
  datatype Act = Other(op: Op) | Start(duration: int, period: int, hw: nat) | Stop | Read

  function Do(w: World, id: nat, act: Act, remaining: nat): World {
    match act
    case Other(op) => if op.id == id then w else w.(clock := Exec(w.clock, op, remaining))
    case Start(duration, period, hw) =>
      if duration == K_TICKS_FOREVER then w
      else
        var c := Exec(Exec(w.clock, Cancel(id), remaining), Arm(id, StoredDuration(duration), hw), remaining);
        World(c, StoredPeriod(period), 0, |TimesOf(w.clock.fired, id)|, [])
    case Stop => w.(clock := Exec(w.clock, Cancel(id), remaining))
    case Read => w.(status := 0, cleared := |TimesOf(w.clock.fired, id)|)
  }

  function DoAll(w: World, id: nat, acts: seq<Act>, remaining: nat): World
    decreases |acts|
  {
    if acts == [] then w else DoAll(Do(w, id, acts[0], remaining), id, acts[1..], remaining)
  }

  /** What arming adds: the clock driver's elapsed ticks, but nothing while ticks are still to be announced. */
  function Lag(hw: nat, remaining: nat): nat { if remaining == 0 then hw else 0 }

  /** z_timer_expiration_handler(), up to the expiry function. */
  function Expired(w: World, id: nat, hw: nat, remaining: nat): World {
    var u := w.(status := (w.status + 1) % UINT32);
    if Periodic(w.period) then
      u.(clock := Exec(w.clock, Arm(id, w.period, hw), remaining), late := w.late + [Lag(hw, remaining)])
    else u
  }

  /** What the k-th handler call, which is on behalf of entry `i`, does besides; and the elapsed ticks reported to it. */
  type Reactions = (nat, nat) -> seq<Act>

  type Lags = nat -> nat

  /** One round of an announcement that ends at tick `until`. */
  function Fire(w: World, id: nat, until: int, acts: Reactions, lags: Lags): World
    requires w.clock.pend != [] && w.clock.pend[0].due.at <= until
  {
    var k, x := |w.clock.fired|, w.clock.pend[0].due;
    var m := w.(clock := FireHead(w.clock));
    DoAll(if x.id == id then Expired(m, id, lags(k), until - x.at) else m, id, acts(k, x.id), until - x.at)
  }

  // ----- The same as operations on the queue -----

  function Ops(id: nat, act: Act): seq<Op> {
    match act
    case Other(op) => if op.id == id then [] else [op]
    case Start(duration, _, hw) => if duration == K_TICKS_FOREVER then [] else [Cancel(id), Arm(id, StoredDuration(duration), hw)]
    case Stop => [Cancel(id)]
    case Read => []
  }

  function AllOps(id: nat, acts: seq<Act>): seq<Op> {
    if acts == [] then [] else Ops(id, acts[0]) + AllOps(id, acts[1..])
  }

  function OwnOps(w: World, id: nat, hw: nat): seq<Op> { if Periodic(w.period) then [Arm(id, w.period, hw)] else [] }

  function FireOps(w: World, id: nat, acts: Reactions, lags: Lags): seq<Op>
    requires w.clock.pend != []
  {
    var k, x := |w.clock.fired|, w.clock.pend[0].due;
    (if x.id == id then OwnOps(w, id, lags(k)) else []) + AllOps(id, acts(k, x.id))
  }

  lemma {:induction false} ExecAllConcat(c: Clock, a: seq<Op>, b: seq<Op>, remaining: nat)
    ensures ExecAll(c, a + b, remaining) == ExecAll(ExecAll(c, a, remaining), b, remaining)
    decreases |a|
  {
    if a == [] {
      assert a + b == b;
    } else {
      assert (a + b)[0] == a[0] && (a + b)[1..] == a[1..] + b;
      ExecAllConcat(Exec(c, a[0], remaining), a[1..], b, remaining);
    }
  }

  lemma DoClock(w: World, id: nat, act: Act, remaining: nat)
    ensures Do(w, id, act, remaining).clock == ExecAll(w.clock, Ops(id, act), remaining)
  {
    hide Exec;
    match act
    case Other(op) => ExecOne(w.clock, op, remaining);
    case Start(duration, _, hw) =>
      if duration != K_TICKS_FOREVER {
        var arm := Arm(id, StoredDuration(duration), hw);
        assert [Cancel(id), arm] == [Cancel(id)] + [arm];
        ExecAllConcat(w.clock, [Cancel(id)], [arm], remaining);
        ExecOne(w.clock, Cancel(id), remaining);
        ExecOne(Exec(w.clock, Cancel(id), remaining), arm, remaining);
      }
    case Stop => ExecOne(w.clock, Cancel(id), remaining);
    case Read =>
  }

  lemma {:induction false} DoAllClock(w: World, id: nat, acts: seq<Act>, remaining: nat)
    ensures DoAll(w, id, acts, remaining).clock == ExecAll(w.clock, AllOps(id, acts), remaining)
    decreases |acts|
  {
    hide Exec, Do, Ops;
    if acts != [] {
      DoClock(w, id, acts[0], remaining);
      var u := Do(w, id, acts[0], remaining);
      DoAllClock(u, id, acts[1..], remaining);
      ExecAllConcat(w.clock, Ops(id, acts[0]), AllOps(id, acts[1..]), remaining);
    }
  }

  /** A round is a round of the timeout queue. */
  lemma FireClock(w: World, id: nat, until: int, acts: Reactions, lags: Lags, h: Handlers)
    requires w.clock.pend != [] && w.clock.pend[0].due.at <= until
    requires h(|w.clock.fired|, w.clock.pend[0].due.id) == FireOps(w, id, acts, lags)
    ensures Fire(w, id, until, acts, lags).clock == FireOne(w.clock, until, h)
  {
    hide Exec, AllOps, FireHead;
    var k, x := |w.clock.fired|, w.clock.pend[0].due;
    var c, r := FireHead(w.clock), until - x.at;
    var m := w.(clock := c);
    if x.id == id {
      var own := OwnOps(w, id, lags(k));
      if Periodic(w.period) {
        ExecOne(c, Arm(id, w.period, lags(k)), r);
      }
      assert Expired(m, id, lags(k), r).clock == ExecAll(c, own, r);
      ExecAllConcat(c, own, AllOps(id, acts(k, x.id)), r);
      DoAllClock(Expired(m, id, lags(k), r), id, acts(k, x.id), r);
    } else {
      assert [] + AllOps(id, acts(k, x.id)) == AllOps(id, acts(k, x.id));
      DoAllClock(m, id, acts(k, x.id), r);
    }
  }

  // ----- Announcements and runs -----

  lemma FireProgress(w: World, id: nat, until: int, acts: Reactions, lags: Lags)
    requires Ordered(w.clock) && w.clock.pend != [] && w.clock.pend[0].due.at <= until
    ensures var c, d := w.clock, Fire(w, id, until, acts, lags).clock;
      && Ordered(d) && c.now <= d.now == c.pend[0].due.at <= until && d.fired == c.fired + [c.pend[0]]
      && (d.now > c.now || DueNow(d.pend, d.now) < DueNow(c.pend, c.now))
  {
    var ops := FireOps(w, id, acts, lags);
    var h: Handlers := (k, i) => ops;
    FireClock(w, id, until, acts, lags, h);
    hide Fire, FireOne, FireOps;
    FireOneProgress(w.clock, until, h);
  }

  ghost function Fires(w: World, id: nat, until: int, acts: Reactions, lags: Lags): World
    requires Ordered(w.clock)
    decreases until - w.clock.now, DueNow(w.clock.pend, w.clock.now)
  {
    if w.clock.pend != [] && w.clock.pend[0].due.at <= until then
      FireProgress(w, id, until, acts, lags);
      Fires(Fire(w, id, until, acts, lags), id, until, acts, lags)
    else w
  }

  ghost function Announced(w: World, id: nat, ticks: nat, acts: Reactions, lags: Lags): World
    requires Ordered(w.clock)
  {
    var until := w.clock.now + ticks;
    var u := Fires(w, id, until, acts, lags);
    u.(clock := u.clock.(now := until))
  }

  datatype Happening = Now(act: Act) | Passing(ticks: nat, acts: Reactions, lags: Lags)

  ghost function Happen(w: World, id: nat, e: Happening): World
    requires Ordered(w.clock)
  {
    match e
    case Now(act) => Do(w, id, act, 0)
    case Passing(ticks, acts, lags) => Announced(w, id, ticks, acts, lags)
  }

  // ----- Every run is a run of the timeout queue -----

  /** Only the handlers of calls still to come matter. */
  lemma {:induction false} ExpireSame(c: Clock, until: int, g: Handlers, h: Handlers)
    requires Ordered(c) && forall k, i :: k >= |c.fired| ==> g(k, i) == h(k, i)
    ensures Expire(c, until, g) == Expire(c, until, h)
    decreases until - c.now, DueNow(c.pend, c.now)
  {
    if c.pend != [] && c.pend[0].due.at <= until {
      FireOneProgress(c, until, g);
      assert FireOne(c, until, g) == FireOne(c, until, h);
      ExpireSame(FireOne(c, until, g), until, g, h);
    }
  }

  lemma {:induction false} FiresAs(w: World, id: nat, until: int, acts: Reactions, lags: Lags) returns (h: Handlers)
    requires Ordered(w.clock)
    ensures Expire(w.clock, until, h) == Fires(w, id, until, acts, lags).clock
    decreases until - w.clock.now, DueNow(w.clock.pend, w.clock.now)
  {
    h := (k, i) => [];
    if w.clock.pend != [] && w.clock.pend[0].due.at <= until {
      FireProgress(w, id, until, acts, lags);
      var u := Fire(w, id, until, acts, lags);
      var g := FiresAs(u, id, until, acts, lags);
      var n, ops := |w.clock.fired|, FireOps(w, id, acts, lags);
      h := (k: nat, i: nat) => if k == n then ops else g(k, i);
      FireClock(w, id, until, acts, lags, h);
      ExpireSame(u.clock, until, g, h);
      hide Fire, FireOne, FireOps;
      assert Expire(w.clock, until, h) == Expire(FireOne(w.clock, until, h), until, h);
    }
  }

  ghost function Calls(ops: seq<Op>): seq<Event> { seq(|ops|, i requires 0 <= i < |ops| => Call(ops[i])) }

  lemma {:induction false} CallsRun(c: Clock, ops: seq<Op>)
    requires Ordered(c)
    ensures Run(c, Calls(ops)) == ExecAll(c, ops, 0)
    decreases |ops|
  {
    if ops != [] {
      StepOrdered(c, Call(ops[0]));
      CallsRun(Exec(c, ops[0], 0), ops[1..]);
      assert Calls(ops)[1..] == Calls(ops[1..]);
    }
  }

  lemma {:induction false} RunOrdered(c: Clock, es: seq<Event>)
    requires Ordered(c)
    ensures Ordered(Run(c, es))
    decreases |es|
  {
    hide Ordered, Step;
    if es != [] {
      StepOrdered(c, es[0]);
      RunOrdered(Step(c, es[0]), es[1..]);
    }
  }

  lemma TickRun(c: Clock, ticks: nat, h: Handlers)
    requires Ordered(c)
    ensures Run(c, [Tick(ticks, h)]) == Announce(c, ticks, h)
  {
    hide Ordered, Announce;
    StepOrdered(c, Tick(ticks, h));
    assert [Tick(ticks, h)][1..] == [];
  }

  lemma HappenAs(w: World, id: nat, e: Happening) returns (es: seq<Event>)
    requires Ordered(w.clock)
    ensures Run(w.clock, es) == Happen(w, id, e).clock && Ordered(Run(w.clock, es))
  {
    hide Ordered, Do, Run, ExecAll, Expire, Fires;
    match e {
    case Now(act) =>
      es := Calls(Ops(id, act));
      CallsRun(w.clock, Ops(id, act));
      DoClock(w, id, act, 0);
    case Passing(ticks, acts, lags) =>
      var h := FiresAs(w, id, w.clock.now + ticks, acts, lags);
      es := [Tick(ticks, h)];
      TickRun(w.clock, ticks, h);
    }
    RunOrdered(w.clock, es);
  }

  lemma HappenOrdered(w: World, id: nat, e: Happening)
    requires Ordered(w.clock)
    ensures Ordered(Happen(w, id, e).clock)
  {
    var es := HappenAs(w, id, e);
  }

  ghost function Happens(w: World, id: nat, es: seq<Happening>): World
    requires Ordered(w.clock)
    decreases |es|
  {
    if es == [] then w else
      HappenOrdered(w, id, es[0]);
      Happens(Happen(w, id, es[0]), id, es[1..])
  }

  lemma {:induction false} RunConcat(c: Clock, a: seq<Event>, b: seq<Event>)
    requires Ordered(c) && Ordered(Run(c, a))
    ensures Run(c, a + b) == Run(Run(c, a), b)
    decreases |a|
  {
    hide Ordered, Step;
    if a == [] {
      assert a + b == b;
    } else {
      assert (a + b)[0] == a[0] && (a + b)[1..] == a[1..] + b;
      StepOrdered(c, a[0]);
      RunConcat(Step(c, a[0]), a[1..], b);
    }
  }

  /** So whatever holds of every run of the timeout queue holds here. */
  lemma {:induction false} HappensAs(w: World, id: nat, es: seq<Happening>) returns (ds: seq<Event>)
    requires Ordered(w.clock)
    ensures Run(w.clock, ds) == Happens(w, id, es).clock && Ordered(Run(w.clock, ds))
    decreases |es|
  {
    if es == [] {
      ds := [];
    } else {
      hide Ordered, Happen;
      HappenOrdered(w, id, es[0]);
      var a := HappenAs(w, id, es[0]);
      var b := HappensAs(Happen(w, id, es[0]), id, es[1..]);
      RunConcat(w.clock, a, b);
      ds := a + b;
    }
  }
}
