/**
 The heartbeat between the UI thread, the background thread that owns the supervisor's socket,
 and the supervisor's deadline.

 Times are nanoseconds since the heartbeat's epoch, which is also when the supervisor starts
 waiting. The UI's liveness stamp is stored in whole microseconds, as the source stores it, so a
 stamp can look up to 999 ns older than it is; a stamp of 0 means "not marked yet".
*/
module Heartbeat {
  import opened Options

  const NS_PER_US: nat := 1_000

  /** Tick interval and liveness timeout of the loop. */
  datatype Config = Config(interval: nat, liveness: nat)

  const PRODUCTION := Config(1_000_000_000, 5_000_000_000)

  /** How a socket write ends; only `Broken` is not worth retrying. */
  datatype Write = Sent | Transient | Broken

  datatype State = State(
    clock: nat, lastAliveUs: nat, handleHeld: bool,
    stalled: bool, threadAlive: bool, threadFatal: bool, exited: bool,
    pings: seq<nat>,
    // when the loop last woke, when the UI last marked itself, and the latter as of the former
    lastHead: nat, lastMark: nat, markAtHead: nat)

  /** A UI tick, or one wake-up of the loop with the answer its write would get. */
  datatype Event = UiTick | Head(write: Write)

  datatype Timed = Timed(dt: nat, event: Event)

  function Connected(): State {
    State(0, 0, true, false, true, false, false, [], 0, 0, 0)
  }

  // ---- steps ------------------------------------------------------------------------------------

  /** `elapsed.saturating_sub(last mark)`, 0 while nothing is marked. */
  function Staleness(elapsed: nat, lastUs: nat): nat {
    if lastUs == 0 then 0 else Max(elapsed - lastUs * NS_PER_US, 0)
  }

  predicate Stale(s: State, c: Config) {
    Staleness(s.clock, s.lastAliveUs) > c.liveness
  }

  /** `tick_heartbeat`: mark, then let go of the handle only after a fatal write. */
  function Tick(s: State): State {
    if !s.handleHeld then s
    else s.(lastAliveUs := s.clock / NS_PER_US, lastMark := s.clock, handleHeld := !s.threadFatal)
  }

  /** One iteration of `run_heartbeat_loop` after its sleep. */
  function Beat(s: State, c: Config, w: Write): State {
    if s.exited then s
    else
      var woke := s.(lastHead := s.clock, markAtHead := s.lastMark);
      if Stale(s, c) then
        woke.(stalled := true, threadAlive := if s.stalled then s.threadAlive else false)
      else
        var awake := woke.(stalled := false, threadAlive := if s.stalled then true else s.threadAlive);
        match w
        case Sent => awake.(pings := s.pings + [s.clock])
        case Transient => awake
        case Broken => awake.(threadFatal := true, threadAlive := false, exited := true)
  }

  function Step(s: State, c: Config, t: Timed): State {
    var now := s.(clock := s.clock + t.dt);
    match t.event
    case UiTick => Tick(now)
    case Head(w) => Beat(now, c, w)
  }

  function Run(s: State, c: Config, events: seq<Timed>): State
    decreases |events|
  {
    if events == [] then s else Run(Step(s, c, events[0]), c, events[1..])
  }

  function LastPing(s: State): nat {
    if s.pings == [] then 0 else s.pings[|s.pings| - 1]
  }

  // ---- the flags --------------------------------------------------------------------------------

  /**
   A stall is neither terminal nor visible to the UI: the loop leaves, and the fatal flag rises,
   only together; until then `thread_alive` is `!stalled`; and the handle is let go only when fatal.
  */
  predicate FlagsInv(s: State) {
    && s.exited == s.threadFatal
    && (!s.exited ==> s.threadAlive == !s.stalled)
    && (s.exited ==> !s.threadAlive)
    && (!s.handleHeld ==> s.threadFatal)
  }

  lemma {:induction false} RunKeepsFlags(s: State, c: Config, events: seq<Timed>)
    requires FlagsInv(s)
    ensures FlagsInv(Run(s, c, events))
    decreases |events|
  {
    if events != [] {
      RunKeepsFlags(Step(s, c, events[0]), c, events[1..]);
    }
  }

  predicate Unbroken(events: seq<Timed>) {
    forall i :: 0 <= i < |events| ==> events[i].event != Head(Broken)
  }

  /** Without a fatal write no stall, however long, costs the handle, the stream or the fatal flag. */
  lemma {:induction false} StallIsNeverFatal(s: State, c: Config, events: seq<Timed>)
    requires FlagsInv(s) && !s.threadFatal && s.handleHeld && Unbroken(events)
    ensures var r := Run(s, c, events); !r.threadFatal && !r.exited && r.handleHeld
    decreases |events|
  {
    if events != [] {
      assert events[0].event != Head(Broken);
      StallIsNeverFatal(Step(s, c, events[0]), c, events[1..]);
    }
  }

  /** The loop's wake-up `i`, not stale, finds the socket broken. */
  predicate BreaksAt(s: State, c: Config, events: seq<Timed>, i: nat) {
    && i < |events| && events[i].event == Head(Broken)
    && var before := Run(s, c, events[..i]);
       !Stale(before.(clock := before.clock + events[i].dt), c)
  }

  ghost predicate Breaks(s: State, c: Config, events: seq<Timed>) {
    exists i: nat :: BreaksAt(s, c, events, i)
  }

  /** And the UI ticks after that. */
  ghost predicate BreaksThenTicks(s: State, c: Config, events: seq<Timed>) {
    exists i: nat, j: nat :: BreaksAt(s, c, events, i) && i < j < |events| && events[j].event.UiTick?
  }

  lemma BreaksLater(s: State, c: Config, events: seq<Timed>, i: nat)
    requires events != []
    ensures BreaksAt(s, c, events, i + 1) <==> BreaksAt(Step(s, c, events[0]), c, events[1..], i)
  {
    if i + 1 < |events| {
      assert events[..i + 1][0] == events[0] && events[..i + 1][1..] == events[1..][..i];
    }
  }

  lemma BreaksFirst(s: State, c: Config, events: seq<Timed>)
    requires events != []
    ensures BreaksAt(s, c, events, 0)
            <==> events[0].event == Head(Broken) && !Stale(s.(clock := s.clock + events[0].dt), c)
  {
    assert events[..0] == [];
  }

  lemma BreaksSplit(s: State, c: Config, events: seq<Timed>)
    requires events != []
    ensures var t := Step(s, c, events[0]);
            && (Breaks(s, c, events) <==> BreaksAt(s, c, events, 0) || Breaks(t, c, events[1..]))
            && (BreaksThenTicks(s, c, events) <==>
                  (BreaksAt(s, c, events, 0) && exists j :: 0 < j < |events| && events[j].event.UiTick?)
                  || BreaksThenTicks(t, c, events[1..]))
  {
    var t, rest := Step(s, c, events[0]), events[1..];
    forall i: nat ensures BreaksAt(s, c, events, i + 1) == BreaksAt(t, c, rest, i) { BreaksLater(s, c, events, i); }
    hide BreaksAt;
    if i: nat :| BreaksAt(t, c, rest, i) {
      assert BreaksAt(s, c, events, i + 1);
    }
    if i: nat, j: nat :| BreaksAt(t, c, rest, i) && i < j < |rest| && rest[j].event.UiTick? {
      assert BreaksAt(s, c, events, i + 1) && events[j + 1].event.UiTick?;
    }
    if i: nat :| BreaksAt(s, c, events, i) && i > 0 {
      assert BreaksAt(t, c, rest, i - 1);
    }
    if i: nat, j: nat :| BreaksAt(s, c, events, i) && i > 0 && i < j < |events| && events[j].event.UiTick? {
      assert BreaksAt(t, c, rest, i - 1) && rest[j - 1].event.UiTick?;
    }
  }

  /** The loop is over: it writes nothing more, and the UI's next tick lets go of the handle. */
  lemma {:induction false} FatalIsFinal(s: State, c: Config, events: seq<Timed>)
    requires FlagsInv(s) && s.exited
    ensures var r := Run(s, c, events);
            && r.exited && r.threadFatal && !r.threadAlive && r.pings == s.pings
            && (r.handleHeld <==> s.handleHeld && forall j :: 0 <= j < |events| ==> !events[j].event.UiTick?)
    decreases |events|
  {
    if events != [] {
      FatalIsFinal(Step(s, c, events[0]), c, events[1..]);
      assert forall j :: 1 <= j < |events| ==> events[j] == events[1..][j - 1];
    }
  }

  /**
   A broken write is final, and nothing else is: over any run the loop is gone, with both flags saying
   so, exactly if some wake-up that was not stale found the socket broken, and the UI has let go of
   the handle exactly if it has also ticked since.
  */
  lemma {:induction false} HandleGoesIff(s: State, c: Config, events: seq<Timed>)
    requires FlagsInv(s) && !s.exited && s.handleHeld
    ensures var r := Run(s, c, events);
            && (r.exited <==> Breaks(s, c, events)) && r.threadFatal == r.exited
            && (r.exited ==> !r.threadAlive)
            && (!r.handleHeld <==> BreaksThenTicks(s, c, events))
    decreases |events|
  {
    if events == [] {
    } else {
      var t, rest := Step(s, c, events[0]), events[1..];
      BreaksFirst(s, c, events);
      BreaksSplit(s, c, events);
      assert FlagsInv(t) && t.handleHeld;
      assert t.exited <==> BreaksAt(s, c, events, 0);
      if t.exited {
        FatalIsFinal(t, c, rest);
        assert forall j :: 1 <= j < |events| ==> events[j] == rest[j - 1];
        if j :| 0 <= j < |rest| && rest[j].event.UiTick? { assert events[j + 1].event.UiTick?; }
        LaterTicks(t, c, rest);
      } else {
        HandleGoesIff(t, c, rest);
      }
      hide Step, BreaksAt;
    }
  }

  lemma LaterTicks(s: State, c: Config, events: seq<Timed>)
    ensures BreaksThenTicks(s, c, events) ==> exists j :: 0 <= j < |events| && events[j].event.UiTick?
  {
  }

  /** The UI's last mark is older than the timeout, as far as whole microseconds tell. */
  predicate Overdue(lastAliveUs: nat, now: nat, liveness: nat) {
    lastAliveUs > 0 && now > lastAliveUs * 1_000 + liveness
  }

  /**
   A wake-up writes a ping exactly if the loop is running, the UI is not overdue, and the write goes
   through; and as long as the loop runs its flags say whether the UI was overdue then.
  */
  lemma WakeUpIff(s: State, c: Config, dt: nat, w: Write)
    ensures var r := Step(s, c, Timed(dt, Head(w)));
            var overdue := Overdue(s.lastAliveUs, s.clock + dt, c.liveness);
            && r.pings == (if !s.exited && !overdue && w.Sent? then s.pings + [s.clock + dt] else s.pings)
            && (FlagsInv(s) && !r.exited ==> r.stalled == overdue && r.threadAlive == !overdue)
            && (r.exited <==> s.exited || (!overdue && w.Broken?))
  {
  }

  /** A UI tick is all that ends a stall: whatever the clock says by the next wake-up, it counts from this mark. */
  lemma TickMarks(s: State, c: Config, dt: nat)
    requires FlagsInv(s)
    ensures var r := Step(s, c, Timed(dt, UiTick));
            && r.pings == s.pings && r.stalled == s.stalled && r.exited == s.exited
            && (s.handleHeld ==> r.lastAliveUs == (s.clock + dt) / 1_000 && (r.handleHeld <==> !s.threadFatal))
            && (!s.handleHeld ==> r == s.(clock := s.clock + dt))
  {
  }

  // ---- hang detection and recovery --------------------------------------------------------------

  predicate Silent(events: seq<Timed>) {
    forall i :: 0 <= i < |events| ==> events[i].event.Head?
  }

  /** After the UI's last mark no ping is written later than the liveness timeout. */
  lemma {:induction false} HangSilencesPings(s: State, c: Config, events: seq<Timed>)
    requires s.lastAliveUs != 0 && Silent(events)
    ensures var r := Run(s, c, events);
            && |r.pings| >= |s.pings| && r.pings[..|s.pings|] == s.pings
            && r.lastAliveUs == s.lastAliveUs
            && (forall j :: |s.pings| <= j < |r.pings| ==>
                  r.pings[j] <= s.lastAliveUs * NS_PER_US + c.liveness)
    decreases |events|
  {
    if events != [] {
      var t := Step(s, c, events[0]);
      HangSilencesPings(t, c, events[1..]);
      var r := Run(s, c, events);
      assert r.pings[..|s.pings|] == r.pings[..|t.pings|][..|s.pings|];
      assert forall j :: |s.pings| <= j < |t.pings| ==> r.pings[j] == r.pings[..|t.pings|][j];
    }
  }

  /**
   So a hang is always noticed: `liveness + deadline` after the last mark the supervisor has waited
   its deadline out.
  */
  lemma {:induction false} HangIsDetected(s: State, c: Config, deadline: nat, events: seq<Timed>)
    requires s.lastAliveUs != 0 && Silent(events)
    requires LastPing(s) <= s.lastAliveUs * NS_PER_US + c.liveness
    requires Run(s, c, events).clock >= s.lastAliveUs * NS_PER_US + c.liveness + deadline
    ensures var r := Run(s, c, events); r.clock >= LastPing(r) + deadline
  {
    HangSilencesPings(s, c, events);
    var r := Run(s, c, events);
    if |r.pings| == |s.pings| {
      assert r.pings == s.pings;
    }
  }

  /** From any state that is not fatal, one UI tick and one wake-up within the timeout write a ping. */
  lemma RecoveryPings(s: State, c: Config, dt: nat, dt': nat)
    requires FlagsInv(s) && !s.threadFatal
    requires dt' + NS_PER_US <= c.liveness
    ensures var r := Step(Step(s, c, Timed(dt, UiTick)), c, Timed(dt', Head(Sent)));
            && r.pings == s.pings + [s.clock + dt + dt']
            && r.threadAlive && !r.stalled && r.handleHeld
  {
    var t := Step(s, c, Timed(dt, UiTick));
    assert t.clock < t.lastAliveUs * NS_PER_US + NS_PER_US;
  }

  // ---- no false kill ----------------------------------------------------------------------------

  /** Scheduling bounds: wake-ups between `interval` and `period` apart, UI marks at most `markGap` apart. */
  datatype Pace = Pace(period: nat, markGap: nat)

  predicate OnTime(s: State, c: Config, p: Pace, t: Timed) {
    var now := s.clock + t.dt;
    && now <= s.lastHead + p.period
    && (s.lastAliveUs != 0 ==> now <= s.lastMark + p.markGap)
    && (t.event.Head? ==> t.event.write.Sent? && s.lastHead + c.interval <= now)
  }

  predicate Paced(s: State, c: Config, p: Pace, events: seq<Timed>)
    decreases |events|
  {
    events == [] || (OnTime(s, c, p, events[0]) && Paced(Step(s, c, events[0]), c, p, events[1..]))
  }

  /**
   `grid` divides every instant at which the loop can look: 1 when its wake-ups jitter, and any
   divisor of a microsecond and of the interval when they are exactly the interval apart.
  */
  predicate OnGrid(c: Config, p: Pace, grid: nat) {
    && 0 < grid && NS_PER_US % grid == 0
    && (grid == 1 || (p.period == c.interval && c.interval % grid == 0))
  }

  /** How much older than it is a mark can look to a loop on that grid, in effect. */
  function Rounding(c: Config, grid: nat): (r: int)
    requires grid > 0
  {
    NS_PER_US - grid + c.liveness % grid
  }

  /**
   What the pace has to satisfy against a supervisor that waits `deadline`: the loop period below
   the deadline and, with the stamp's rounding, within the timeout; and marks no further apart than
   timeout plus deadline less two periods, less the rounding.
  */
  predicate Affordable(c: Config, p: Pace, grid: nat, deadline: nat) {
    && OnGrid(c, p, grid)
    && c.interval <= p.period < deadline
    && p.period + Rounding(c, grid) <= c.liveness
    && p.markGap + Rounding(c, grid) + 2 * p.period <= c.liveness + deadline
  }

  /** Either the last wake-up pinged, or it was stale and the ping before it was late enough. */
  predicate PaceInv(s: State, c: Config, p: Pace, grid: nat)
    requires grid > 0
  {
    && !s.exited && s.handleHeld && !s.threadFatal
    && s.lastHead % grid == 0
    && s.clock <= s.lastHead + p.period
    && s.markAtHead <= s.lastHead <= s.clock
    && s.markAtHead <= s.lastMark <= s.clock
    && (s.lastMark > s.markAtHead ==> s.lastMark >= s.lastHead)
    && s.lastAliveUs == s.lastMark / NS_PER_US
    && LastPing(s) <= s.lastHead
    && (LastPing(s) < s.lastHead ==>
          && s.markAtHead >= NS_PER_US
          && s.markAtHead + c.liveness + 1 <= LastPing(s) + p.period + Rounding(c, grid)
          && s.lastHead <= s.markAtHead + p.markGap)
  }

  predicate GapsBelow(pings: seq<nat>, deadline: nat) {
    && (pings != [] ==> pings[0] < deadline)
    && (forall j :: 0 <= j && j + 1 < |pings| ==> pings[j + 1] - pings[j] < deadline)
  }

  lemma ScaledOrder(a: int, b: int, g: nat)
    requires a <= b
    ensures g * a <= g * b
  {
  }

  /** On the grid a difference past a bound is past it by a whole step. */
  lemma GridStep(n: nat, us: nat, bound: nat, grid: nat)
    requires grid > 0 && NS_PER_US % grid == 0 && n % grid == 0
    requires n - us * NS_PER_US > bound
    ensures n - us * NS_PER_US >= bound - bound % grid + grid
  {
    var per, x, q := NS_PER_US / grid, n / grid, bound / grid;
    assert us * NS_PER_US == grid * (us * per) by {
      assert NS_PER_US == grid * per;
      assert us * (grid * per) == grid * (us * per);
    }
    var steps := x - us * per;
    assert n - us * NS_PER_US == grid * steps;
    assert bound == grid * q + bound % grid;
    if steps <= q {
      ScaledOrder(steps, q, grid);
    } else {
      ScaledOrder(q + 1, steps, grid);
    }
  }

  /** A mark that looks stale from the grid really is that old, but for the rounding. */
  lemma StaleMark(s: State, c: Config, grid: nat)
    requires grid > 0 && NS_PER_US % grid == 0 && s.clock % grid == 0
    requires s.lastAliveUs == s.lastMark / NS_PER_US && Stale(s, c)
    ensures s.lastMark >= NS_PER_US && s.lastMark + c.liveness + 1 <= s.clock + Rounding(c, grid)
  {
    GridStep(s.clock, s.lastAliveUs, c.liveness, grid);
  }

  lemma NextHeadOnGrid(head: nat, interval: nat, grid: nat)
    requires grid > 0 && head % grid == 0 && interval % grid == 0
    ensures (head + interval) % grid == 0
  {
    var q, r := (head + interval) / grid, (head + interval) % grid;
    var over := head / grid + interval / grid - q;
    assert grid * over == r;
    if over >= 1 {
      ScaledOrder(1, over, grid);
    } else if over <= -1 {
      ScaledOrder(over, -1, grid);
    }
  }

  /** The supervisor's view at any instant of a paced run. */
  lemma PaceMeetsDeadline(s: State, c: Config, p: Pace, grid: nat, deadline: nat)
    requires Affordable(c, p, grid, deadline) && PaceInv(s, c, p, grid)
    ensures s.clock < LastPing(s) + deadline
  {
    hide Rounding;
  }

  lemma PacedHead(s: State, c: Config, p: Pace, grid: nat, deadline: nat, t: Timed)
    requires Affordable(c, p, grid, deadline) && PaceInv(s, c, p, grid) && OnTime(s, c, p, t) && t.event.Head?
    ensures var r := Step(s, c, t);
            PaceInv(r, c, p, grid) && (r.pings == s.pings || r.pings == s.pings + [r.clock])
  {
    var now := s.(clock := s.clock + t.dt);
    if grid > 1 {
      NextHeadOnGrid(s.lastHead, c.interval, grid);
    }
    assert now.clock % grid == 0;
    if Stale(now, c) {
      StaleMark(now, c, grid);
    }
    hide Rounding, OnGrid, Stale;
  }

  lemma PacedStep(s: State, c: Config, p: Pace, grid: nat, deadline: nat, t: Timed)
    requires Affordable(c, p, grid, deadline) && PaceInv(s, c, p, grid) && OnTime(s, c, p, t)
    ensures var r := Step(s, c, t);
            && PaceInv(r, c, p, grid)
            && (r.pings == s.pings || r.pings == s.pings + [r.clock])
            && s.clock + t.dt == r.clock < LastPing(s) + deadline
  {
    PaceMeetsDeadline(s.(clock := s.clock + t.dt), c, p, grid, deadline);
    if t.event.Head? {
      PacedHead(s, c, p, grid, deadline, t);
    }
    hide Rounding, OnGrid, Stale;
  }

  /**
   No false kill: in a paced run the supervisor never waits its deadline out. At every instant the
   last ping is less than `deadline` old, and so is every ping when the next one arrives.
  */
  lemma {:induction false} NoFalseKill(s: State, c: Config, p: Pace, grid: nat, deadline: nat, events: seq<Timed>)
    requires Affordable(c, p, grid, deadline) && PaceInv(s, c, p, grid) && GapsBelow(s.pings, deadline)
    requires Paced(s, c, p, events)
    ensures var r := Run(s, c, events);
            PaceInv(r, c, p, grid) && GapsBelow(r.pings, deadline) && r.clock < LastPing(r) + deadline
    decreases |events|
  {
    if events == [] {
      PaceMeetsDeadline(s, c, p, grid, deadline);
    } else {
      PacedStep(s, c, p, grid, deadline, events[0]);
      NoFalseKill(Step(s, c, events[0]), c, p, grid, deadline, events[1..]);
    }
  }

  /**
   The round figure is safe for a loop that wakes exactly every whole-microsecond interval, with a
   whole-microsecond timeout: marks may be timeout plus deadline less two intervals apart.
  */
  lemma ExactWakeUpsTolerate(c: Config, markGap: nat, deadline: nat, events: seq<Timed>)
    requires c.interval % NS_PER_US == 0 && c.liveness % NS_PER_US == 0
    requires c.interval < deadline && c.interval <= c.liveness
    requires markGap + 2 * c.interval <= c.liveness + deadline
    requires Paced(Connected(), c, Pace(c.interval, markGap), events)
    ensures var r := Run(Connected(), c, events);
            GapsBelow(r.pings, deadline) && r.clock < LastPing(r) + deadline
  {
    NoFalseKill(Connected(), c, Pace(c.interval, markGap), NS_PER_US, deadline, events);
  }

  /**
   The shipped constants against the supervisor's default 8 s. Woken exactly every second the loop
   tolerates marks 11 s apart; with wake-ups up to `period` apart, 13 s less two periods and 999 ns.
  */
  lemma ProductionTolerance(p: Pace, events: seq<Timed>)
    requires 1_000_000_000 <= p.period <= 4_999_999_001
    requires p.markGap + 2 * p.period + (if p.period == 1_000_000_000 then 0 else 999) <= 13_000_000_000
    requires Paced(Connected(), PRODUCTION, p, events)
    ensures var r := Run(Connected(), PRODUCTION, events);
            GapsBelow(r.pings, 8_000_000_000) && r.clock < LastPing(r) + 8_000_000_000
  {
    NoFalseKill(Connected(), PRODUCTION, p, if p.period == 1_000_000_000 then NS_PER_US else 1, 8_000_000_000, events);
  }

  // ---- the bound is exact -----------------------------------------------------------------------

  lemma {:induction false} PacedAppend(s: State, c: Config, p: Pace, a: seq<Timed>, b: seq<Timed>)
    requires Paced(s, c, p, a) && Paced(Run(s, c, a), c, p, b)
    ensures Paced(s, c, p, a + b) && Run(s, c, a + b) == Run(Run(s, c, a), c, b)
    decreases |a|
  {
    if a == [] {
      assert a + b == b;
    } else {
      assert (a + b)[1..] == a[1..] + b;
      PacedAppend(Step(s, c, a[0]), c, p, a[1..], b);
    }
  }

  lemma PacedOne(s: State, c: Config, p: Pace, t: Timed)
    requires OnTime(s, c, p, t)
    ensures Paced(s, c, p, [t]) && Run(s, c, [t]) == Step(s, c, t)
  {
    assert [t][1..] == [];
    assert Paced(Step(s, c, t), c, p, []) && Run(Step(s, c, t), c, []) == Step(s, c, t);
  }

  /** `k` wake-ups can cover exactly `span`. */
  predicate Covers(c: Config, p: Pace, k: nat, span: nat) {
    k * c.interval <= span <= k * p.period
  }

  /** The first of them, leaving the others a span they can cover. */
  function Stride(c: Config, p: Pace, k: nat, span: nat): nat
    requires k > 0
  {
    var least := (k - 1) * c.interval;
    if span <= least + p.period then Max(span - least, 0) else p.period
  }

  lemma StrideFits(c: Config, p: Pace, k: nat, span: nat)
    requires k > 0 && c.interval <= p.period && Covers(c, p, k, span)
    ensures var d := Stride(c, p, k, span);
            c.interval <= d <= p.period && d <= span && Covers(c, p, k - 1, span - d)
  {
    var least, most := (k - 1) * c.interval, (k - 1) * p.period;
    assert k * c.interval == least + c.interval && k * p.period == most + p.period;
    ScaledOrder(c.interval, p.period, k - 1);
  }

  /** At a wake-up, with the loop alive. */
  predicate AtHead(s: State) {
    s.clock == s.lastHead && !s.exited && s.handleHeld && !s.threadFatal
  }

  /** No mark is stale, or late, up to `until`. */
  predicate FreshUntil(s: State, c: Config, p: Pace, until: nat) {
    s.lastAliveUs == 0 || (until <= s.lastAliveUs * NS_PER_US + c.liveness && until <= s.lastMark + p.markGap)
  }

  lemma WalkFresh(s: State, c: Config, p: Pace, k: nat, span: nat) returns (events: seq<Timed>)
    requires AtHead(s) && c.interval <= p.period && Covers(c, p, k, span) && FreshUntil(s, c, p, s.clock + span)
    ensures Paced(s, c, p, events)
    ensures var r := Run(s, c, events);
            && AtHead(r) && r.clock == s.clock + span && r.lastAliveUs == s.lastAliveUs && r.lastMark == s.lastMark
            && (if k == 0 then r == s else LastPing(r) == r.clock)
    decreases k
  {
    if k == 0 {
      events := [];
    } else {
      var d := Stride(c, p, k, span);
      StrideFits(c, p, k, span);
      var t := Timed(d, Head(Sent));
      PacedOne(s, c, p, t);
      var rest := WalkFresh(Step(s, c, t), c, p, k - 1, span - d);
      events := [t] + rest;
      PacedAppend(s, c, p, [t], rest);
    }
  }

  /** The UI's first mark at `m`, and the wake-up `d` after the last one. */
  lemma MarkThenHead(s: State, c: Config, p: Pace, d: nat, m: nat) returns (events: seq<Timed>)
    requires AtHead(s) && s.lastAliveUs == 0 && c.interval <= d <= p.period && s.clock <= m < s.clock + d
    requires s.clock + d <= m / NS_PER_US * NS_PER_US + c.liveness && s.clock + d <= m + p.markGap
    ensures Paced(s, c, p, events)
    ensures var r := Run(s, c, events);
            && AtHead(r) && r.clock == s.clock + d == LastPing(r)
            && r.lastMark == m && r.lastAliveUs == m / NS_PER_US
  {
    var mark, head := Timed(m - s.clock, UiTick), Timed(s.clock + d - m, Head(Sent));
    PacedOne(s, c, p, mark);
    PacedOne(Step(s, c, mark), c, p, head);
    PacedAppend(s, c, p, [mark], [head]);
    events := [mark] + [head];
  }

  /** The same with the UI's first mark falling at `m`. */
  lemma WalkMarked(s: State, c: Config, p: Pace, k: nat, span: nat, m: nat) returns (events: seq<Timed>)
    requires AtHead(s) && c.interval <= p.period && Covers(c, p, k, span)
    requires s.lastAliveUs == 0 && s.clock <= m < s.clock + span && m >= NS_PER_US
    requires s.clock + span <= m / NS_PER_US * NS_PER_US + c.liveness && s.clock + span <= m + p.markGap
    ensures Paced(s, c, p, events)
    ensures var r := Run(s, c, events);
            && AtHead(r) && r.clock == s.clock + span == LastPing(r)
            && r.lastMark == m && r.lastAliveUs == m / NS_PER_US
    decreases k
  {
    var d := Stride(c, p, k, span);
    StrideFits(c, p, k, span);
    if m < s.clock + d {
      var first := MarkThenHead(s, c, p, d, m);
      var rest := WalkFresh(Run(s, c, first), c, p, k - 1, span - d);
      PacedAppend(s, c, p, first, rest);
      events := first + rest;
    } else {
      var head := Timed(d, Head(Sent));
      PacedOne(s, c, p, head);
      var rest := WalkMarked(Step(s, c, head), c, p, k - 1, span - d, m);
      PacedAppend(s, c, p, [head], rest);
      events := [head] + rest;
    }
  }

  lemma WalkStale(s: State, c: Config, p: Pace, k: nat, span: nat) returns (events: seq<Timed>)
    requires AtHead(s) && c.interval <= p.period && Covers(c, p, k, span)
    requires s.lastAliveUs != 0 && s.clock > s.lastAliveUs * NS_PER_US + c.liveness
    requires s.clock + span <= s.lastMark + p.markGap
    ensures Paced(s, c, p, events)
    ensures var r := Run(s, c, events);
            && AtHead(r) && r.clock == s.clock + span && r.pings == s.pings
            && r.lastAliveUs == s.lastAliveUs && r.lastMark == s.lastMark
    decreases k
  {
    if k == 0 {
      events := [];
    } else {
      var d := Stride(c, p, k, span);
      StrideFits(c, p, k, span);
      var t := Timed(d, Head(Sent));
      PacedOne(s, c, p, t);
      var rest := WalkStale(Step(s, c, t), c, p, k - 1, span - d);
      events := [t] + rest;
      PacedAppend(s, c, p, [t], rest);
    }
  }

  /** One nanosecond more between marks than `Affordable` grants. */
  predicate JustTooSlow(c: Config, p: Pace, grid: nat, deadline: nat) {
    && p.markGap > 0 && Affordable(c, p.(markGap := p.markGap - 1), grid, deadline)
    && !Affordable(c, p, grid, deadline)
  }

  ghost predicate SomeRunIsKilled(c: Config, p: Pace, deadline: nat) {
    exists events: seq<Timed> ::
      Paced(Connected(), c, p, events) && !GapsBelow(Run(Connected(), c, events).pings, deadline)
  }

  /** The marks of the run below: the stalest one a ping can still have gone out under, and the next. */
  function LastMarkBefore(c: Config, p: Pace, grid: nat, ping: nat): int
    requires grid > 0
  {
    ping + p.period - c.liveness + Rounding(c, grid) - 1
  }

  /** Up to the last ping in time: `n` wake-ups, with the UI's first mark as late as it may be stale at the next one. */
  lemma RunToPing(c: Config, p: Pace, grid: nat, deadline: nat, n: nat, ping: nat) returns (events: seq<Timed>)
    requires JustTooSlow(c, p, grid, deadline) && Covers(c, p, n, ping) && 2 * p.period <= deadline
    requires var m := LastMarkBefore(c, p, grid, ping); m >= 2 * NS_PER_US && m % NS_PER_US == NS_PER_US - 1
    ensures Paced(Connected(), c, p, events)
    ensures var r, m := Run(Connected(), c, events), LastMarkBefore(c, p, grid, ping);
            && AtHead(r) && r.clock == LastPing(r) == ping && r.lastMark == m && r.lastAliveUs == m / NS_PER_US
  {
    var m := LastMarkBefore(c, p, grid, ping);
    assert m / NS_PER_US * NS_PER_US == m - (NS_PER_US - 1);
    events := WalkMarked(Connected(), c, p, n, ping, m);
  }

  /** At the ping, under the stalest mark it can have gone out under. */
  predicate AtLastPing(s: State, c: Config, p: Pace, grid: nat)
    requires grid > 0
  {
    && AtHead(s) && s.clock == LastPing(s) && s.pings != []
    && s.lastMark == LastMarkBefore(c, p, grid, s.clock) && s.lastMark % NS_PER_US == NS_PER_US - 1
    && s.lastMark >= NS_PER_US && s.lastAliveUs == s.lastMark / NS_PER_US
  }

  lemma MarkGapOf(c: Config, p: Pace, grid: nat, deadline: nat)
    requires JustTooSlow(c, p, grid, deadline)
    ensures p.markGap == c.liveness + deadline - 2 * p.period - Rounding(c, grid) + 1
    ensures 1 <= Rounding(c, grid) + 1 <= NS_PER_US + grid - 1
  {
  }

  /** A stale wake-up a period on, and `k` more until the next mark is due. */
  lemma RunStale(s: State, c: Config, p: Pace, grid: nat, deadline: nat, k: nat) returns (events: seq<Timed>)
    requires JustTooSlow(c, p, grid, deadline) && 2 * p.period <= deadline && Covers(c, p, k, deadline - 2 * p.period)
    requires AtLastPing(s, c, p, grid)
    ensures Paced(s, c, p, events)
    ensures var r := Run(s, c, events);
            && AtHead(r) && r.clock == s.clock + deadline - p.period == s.lastMark + p.markGap && r.pings == s.pings
            && r.lastMark == s.lastMark && r.lastAliveUs == s.lastAliveUs
  {
    MarkGapOf(c, p, grid, deadline);
    var late := Timed(p.period, Head(Sent));
    PacedOne(s, c, p, late);
    var stale := Step(s, c, late);
    assert s.lastAliveUs * NS_PER_US == s.lastMark - (NS_PER_US - 1);
    var wait := WalkStale(stale, c, p, k, deadline - 2 * p.period);
    PacedAppend(s, c, p, [late], wait);
    events := [late] + wait;
  }

  lemma FreshAfterMark(s: State, c: Config, p: Pace, grid: nat)
    requires OnGrid(c, p, grid) && p.period + Rounding(c, grid) <= c.liveness && (s.clock + p.period) % grid == 0
    requires s.lastMark == s.clock && s.lastAliveUs == s.clock / NS_PER_US
    ensures !Stale(s.(clock := s.clock + p.period), c)
  {
    var due := s.(clock := s.clock + p.period);
    if Stale(due, c) {
      StaleMark(due, c, grid);
    }
  }

  /** The mark, and the ping a period after it. */
  lemma RunToKill(s: State, c: Config, p: Pace, grid: nat, deadline: nat) returns (events: seq<Timed>)
    requires JustTooSlow(c, p, grid, deadline) && 2 * p.period <= deadline
    requires AtHead(s) && s.lastAliveUs != 0 && s.lastHead % grid == 0 && s.clock == s.lastMark + p.markGap
    ensures Paced(s, c, p, events) && Run(s, c, events).pings == s.pings + [s.clock + p.period]
  {
    MarkGapOf(c, p, grid, deadline);
    if grid > 1 { NextHeadOnGrid(s.lastHead, c.interval, grid); }
    var mark, late := Timed(0, UiTick), Timed(p.period, Head(Sent));
    PacedOne(s, c, p, mark);
    var marked := Step(s, c, mark);
    FreshAfterMark(marked, c, p, grid);
    hide Stale, Rounding, JustTooSlow;
    PacedOne(marked, c, p, late);
    PacedAppend(s, c, p, [mark], [late]);
    events := [mark] + [late];
  }

  lemma {:induction false} HeadsOnGrid(s: State, c: Config, p: Pace, grid: nat, events: seq<Timed>)
    requires OnGrid(c, p, grid) && Paced(s, c, p, events) && s.lastHead % grid == 0
    ensures Run(s, c, events).lastHead % grid == 0
    decreases |events|
  {
    if events != [] {
      if grid > 1 { NextHeadOnGrid(s.lastHead, c.interval, grid); }
      HeadsOnGrid(Step(s, c, events[0]), c, p, grid, events[1..]);
    }
  }

  lemma KilledFrom(c: Config, p: Pace, grid: nat, deadline: nat, n: nat, ping: nat, k: nat)
    requires JustTooSlow(c, p, grid, deadline) && Covers(c, p, n, ping)
    requires 2 * p.period <= deadline && Covers(c, p, k, deadline - 2 * p.period)
    requires var m := LastMarkBefore(c, p, grid, ping); m >= 2 * NS_PER_US && m % NS_PER_US == NS_PER_US - 1
    ensures SomeRunIsKilled(c, p, deadline)
  {
    var a := RunToPing(c, p, grid, deadline, n, ping);
    var s := Run(Connected(), c, a);
    var b := RunStale(s, c, p, grid, deadline, k);
    HeadsOnGrid(Connected(), c, p, grid, a);
    HeadsOnGrid(s, c, p, grid, b);
    var e := RunToKill(Run(s, c, b), c, p, grid, deadline);
    PacedAppend(s, c, p, b, e);
    PacedAppend(Connected(), c, p, a, b + e);
    var pings := Run(Connected(), c, a + (b + e)).pings;
    assert pings[|s.pings|] - pings[|s.pings| - 1] == deadline;
    assert !GapsBelow(pings, deadline);
  }

  /** With jitter some number of wake-ups ends far enough out at any residue of a microsecond. */
  lemma JitterPing(c: Config, p: Pace) returns (n: nat, ping: nat)
    requires 0 < c.interval < p.period <= c.liveness
    ensures Covers(c, p, n, ping)
    ensures var m := LastMarkBefore(c, p, 1, ping); m >= 2 * NS_PER_US && m % NS_PER_US == NS_PER_US - 1
  {
    var far := c.interval * c.interval + 2;
    ping := c.liveness + 1 - p.period + NS_PER_US * far;
    n := ping / c.interval;
    assert LastMarkBefore(c, p, 1, ping) == NS_PER_US * far + (NS_PER_US - 1);
    JitterCovers(c, p, ping);
  }

  /** One nanosecond of jitter per wake-up spreads `n` of them over any remainder below `n`. */
  lemma SpreadCovers(c: Config, p: Pace, n: nat, over: nat)
    requires c.interval < p.period && over < c.interval && c.interval * n + over >= c.interval * c.interval
    ensures Covers(c, p, n, c.interval * n + over)
  {
    if n < c.interval {
      ScaledOrder(n + 1, c.interval, c.interval);
    }
    ScaledOrder(c.interval + 1, p.period, n);
    assert n * (c.interval + 1) == n * c.interval + n && n * c.interval == c.interval * n;
  }

  lemma JitterCovers(c: Config, p: Pace, ping: nat)
    requires 0 < c.interval < p.period && ping >= c.interval * c.interval
    ensures Covers(c, p, ping / c.interval, ping)
  {
    var n, over := ping / c.interval, ping % c.interval;
    assert ping == c.interval * n + over;
    SpreadCovers(c, p, n, over);
  }

  /**
   With jitter the bound is exact to the nanosecond, for every configuration: marks one nanosecond
   further apart, and some paced run reaches the deadline. All it takes is that wake-ups can fill
   the deadline less two periods.
  */
  lemma JitterBoundIsExact(c: Config, p: Pace, deadline: nat, k: nat)
    requires 0 < c.interval < p.period && JustTooSlow(c, p, 1, deadline)
    requires 2 * p.period <= deadline && Covers(c, p, k, deadline - 2 * p.period)
    ensures SomeRunIsKilled(c, p, deadline)
  {
    assert p.period <= c.liveness;
    hide JustTooSlow, LastMarkBefore, Covers;
    var n, ping := JitterPing(c, p);
    KilledFrom(c, p, 1, deadline, n, ping, k);
  }

  /** Wake-ups exactly an interval apart, far enough out for the mark before them. */
  lemma ExactPing(c: Config, p: Pace, n: nat)
    requires p.period == c.interval > 0 && c.interval % NS_PER_US == 0 && c.liveness % NS_PER_US == 0
    requires n >= c.liveness + 3 * NS_PER_US
    ensures Covers(c, p, n, n * c.interval)
    ensures var m := LastMarkBefore(c, p, NS_PER_US, n * c.interval);
            m >= 2 * NS_PER_US && m % NS_PER_US == NS_PER_US - 1
  {
    var i, l := c.interval / NS_PER_US, c.liveness / NS_PER_US;
    var steps := n * i;
    assert n * c.interval == NS_PER_US * steps;
    ScaledOrder(1, i, n);
    assert LastMarkBefore(c, p, NS_PER_US, n * c.interval) == NS_PER_US * (steps + i - l) - 1;
  }

  /** And so is the round figure for exact whole-microsecond wake-ups, when they divide the deadline. */
  lemma ExactBoundIsExact(c: Config, p: Pace, deadline: nat)
    requires p.period == c.interval > 0 && c.interval % NS_PER_US == 0 && c.liveness % NS_PER_US == 0
    requires deadline % c.interval == 0 && 2 * c.interval <= deadline && JustTooSlow(c, p, NS_PER_US, deadline)
    ensures p.markGap == c.liveness + deadline - 2 * c.interval + 1
    ensures SomeRunIsKilled(c, p, deadline)
  {
    MarkGapOf(c, p, NS_PER_US, deadline);
    var n, all := c.liveness + 3 * NS_PER_US, deadline / c.interval;
    ExactPing(c, p, n);
    assert c.interval * all == deadline;
    if all < 2 { ScaledOrder(all, 1, c.interval); }
    assert (all - 2) * c.interval == c.interval * all - 2 * c.interval;
    hide JustTooSlow, LastMarkBefore;
    KilledFrom(c, p, NS_PER_US, deadline, n, n * c.interval, all - 2);
  }

  /** At 1 Hz against 8 s: 11 s between marks is safe, and one nanosecond more is not. */
  lemma ProductionBoundIsExact()
    ensures SomeRunIsKilled(PRODUCTION, Pace(1_000_000_000, 11_000_000_001), 8_000_000_000)
  {
    ExactBoundIsExact(PRODUCTION, Pace(1_000_000_000, 11_000_000_001), 8_000_000_000);
  }

  // ---- in place ---------------------------------------------------------------------------------

  lemma {:induction false} RunSnoc(s: State, c: Config, events: seq<Timed>, e: Timed)
    ensures Run(s, c, events + [e]) == Step(Run(s, c, events), c, e)
    decreases |events|
  {
    if events == [] {
      assert [e][1..] == [];
    } else {
      assert (events + [e])[1..] == events[1..] + [e];
      RunSnoc(Step(s, c, events[0]), c, events[1..], e);
    }
  }

  /** The atomics the two threads share, the UI's hold on the handle, and the socket's far end. */
  class Link {
    var lastAliveUs: nat
    var threadAlive: bool
    var threadFatal: bool
    var handleHeld: bool
    var pings: seq<nat>
    var stalled: bool
    ghost var exited: bool
    var clock: nat
    ghost var lastHead: nat
    ghost var lastMark: nat
    ghost var markAtHead: nat

    ghost function Model(): State
      reads this
    {
      State(clock, lastAliveUs, handleHeld, stalled, threadAlive, threadFatal, exited,
            pings, lastHead, lastMark, markAtHead)
    }

    constructor ()
      ensures Model() == Connected()
    {
      lastAliveUs, threadAlive, threadFatal, handleHeld, pings := 0, true, false, true, [];
      stalled, exited, clock, lastHead, lastMark, markAtHead := false, false, 0, 0, 0, 0;
    }

    method MarkAlive(elapsed: nat)
      requires clock == elapsed
      modifies this`lastAliveUs, this`lastMark
      ensures Model() == old(Model()).(lastAliveUs := elapsed / NS_PER_US, lastMark := elapsed)
    {
      lastAliveUs := elapsed / NS_PER_US;
      lastMark := elapsed;
    }

    predicate IsFatal()
      reads this
    {
      threadFatal
    }

    /** `tick_heartbeat` with the handle's own `tick` inside it. */
    method TickHeartbeat(elapsed: nat)
      requires clock == elapsed
      modifies this`lastAliveUs, this`lastMark, this`handleHeld
      ensures Model() == Tick(old(Model()))
    {
      if handleHeld {
        MarkAlive(elapsed);
        if IsFatal() {
          handleHeld := false;
        }
      }
    }

    /** What the loop does between two sleeps; `leave` is its `return`. */
    method CheckAndPing(c: Config, elapsed: nat, w: Write) returns (leave: bool)
      requires clock == elapsed && !exited
      modifies this
      ensures Model() == Beat(old(Model()), c, w)
      ensures leave == exited
    {
      leave := false;
      lastHead, markAtHead := clock, lastMark;
      var staleness := if lastAliveUs == 0 then 0 else Max(elapsed - lastAliveUs * NS_PER_US, 0);
      if staleness > c.liveness {
        if !stalled {
          threadAlive := false;
          stalled := true;
        }
        return;
      }
      if stalled {
        threadAlive := true;
        stalled := false;
      }
      if w.Sent? {
        pings := pings + [elapsed];
      } else if w.Broken? {
        threadFatal := true;
        threadAlive := false;
        exited := true;
        leave := true;
      }
    }

    /** A UI tick while the loop sleeps, or the loop's own wake-up. */
    method Happen(c: Config, e: Timed) returns (leave: bool)
      requires !exited
      modifies this
      ensures Model() == Step(old(Model()), c, e) && leave == exited
    {
      hide Tick, Beat;
      clock := clock + e.dt;
      leave := false;
      if e.event.UiTick? {
        TickHeartbeat(clock);
      } else {
        leave := CheckAndPing(c, clock, e.event.write);
      }
    }

    /**
     `run_heartbeat_loop`: wake-ups and the UI ticks that fall into its sleeps arrive as `events`; it
     returns early, having used the first `n` of them, only on a broken write.
    */
    method RunHeartbeatLoop(c: Config, events: seq<Timed>) returns (n: nat)
      requires !exited
      modifies this
      ensures n <= |events| && Model() == Run(old(Model()), c, events[..n])
      ensures n < |events| ==> exited
    {
      n := 0;
      ghost var start := Model();
      while n < |events|
        invariant n <= |events| && !exited
        invariant Model() == Run(start, c, events[..n])
      {
        hide Step;
        RunSnoc(start, c, events[..n], events[n]);
        assert events[..n + 1] == events[..n] + [events[n]];
        n := n + 1;
        var leave := Happen(c, events[n - 1]);
        if leave {
          return;
        }
      }
    }
  }
}
