/**
 Touchpad gestures: the two-finger history swipe shared by the main window and every popup, and the
 wheel momentum synthesised after high-resolution scrolling stops.

 Times are nanoseconds of a monotonic clock; the source's single-precision floats are reals.
*/
module Gestures {
  import opened Options

  function Abs(x: real): real {
    if x < 0.0 then -x else x
  }

  // ---- swipe ------------------------------------------------------------------------------------

  const GAP: nat := 200_000_000
  const HORIZ_THRESHOLD: real := 150.0
  const HORIZ_DOMINANCE: real := 2.0

  type Surface = int

  datatype Action = HistoryBack | HistoryForward

  datatype Scroll = Scroll(surface: Surface, dx: real, dy: real, at: nat)

  datatype Detector = Detector(accumX: real, accumY: real, lastAt: Option<nat>, committed: bool)

  datatype Swipe = Swipe(detector: Detector, surface: Option<Surface>)

  const IDLE := Detector(0.0, 0.0, None, false)

  predicate Crosses(x: real, y: real) {
    Abs(x) >= HORIZ_THRESHOLD && Abs(x) > HORIZ_DOMINANCE * Abs(y)
  }

  function ActionOf(x: real): Action {
    if x > 0.0 then HistoryBack else HistoryForward
  }

  /** `SwipeDetector::feed`. */
  function Feed(d: Detector, dx: real, dy: real, now: nat): (Detector, Option<Action>) {
    var resumed := d.lastAt.None? || Max(now - d.lastAt.value, 0) > GAP;
    var x := (if resumed then 0.0 else d.accumX) + dx;
    var y := (if resumed then 0.0 else d.accumY) + dy;
    var was := if resumed then false else d.committed;
    if !was && Crosses(x, y) then (Detector(x, y, Some(now), true), Some(ActionOf(x)))
    else (Detector(x, y, Some(now), was), None)
  }

  /** `detect_swipe`: another surface starts from an idle detector. */
  function Detect(s: Swipe, e: Scroll): (Swipe, Option<Action>) {
    var d := if s.surface == Some(e.surface) then s.detector else IDLE;
    var (d', action) := Feed(d, e.dx, e.dy, e.at);
    (Swipe(d', Some(e.surface)), action)
  }

  function Run(h: seq<Scroll>): Swipe {
    if h == [] then Swipe(IDLE, None) else Detect(Run(h[..|h| - 1]), h[|h| - 1]).0
  }

  /** The event continues the gesture of the one before it. */
  predicate Linked(h: seq<Scroll>, j: nat)
    requires j < |h|
  {
    j > 0 && h[j].surface == h[j - 1].surface && h[j].at <= h[j - 1].at + 200_000_000
  }

  /** `s` starts the maximal run of linked events that ends `h`. */
  predicate StartsGesture(h: seq<Scroll>, s: nat)
    requires s < |h|
  {
    && !Linked(h, s)
    && forall j :: s < j < |h| ==> Linked(h, j)
  }

  function GestureStart(h: seq<Scroll>): (s: nat)
    requires h != []
    ensures s < |h| && StartsGesture(h, s)
  {
    if Linked(h, |h| - 1) then
      var s := GestureStart(h[..|h| - 1]);
      assert forall j :: 0 <= j < |h| - 1 ==> Linked(h, j) == Linked(h[..|h| - 1], j);
      s
    else |h| - 1
  }

  lemma GestureStartUnique(h: seq<Scroll>, s: nat)
    requires s < |h| && StartsGesture(h, s)
    ensures s == GestureStart(h)
  {
    var t := GestureStart(h);
    assert StartsGesture(h, t);
  }

  function SumX(h: seq<Scroll>, from: nat, to: nat): real
    requires from <= to <= |h|
  {
    if from == to then 0.0 else SumX(h, from, to - 1) + h[to - 1].dx
  }

  function SumY(h: seq<Scroll>, from: nat, to: nat): real
    requires from <= to <= |h|
  {
    if from == to then 0.0 else SumY(h, from, to - 1) + h[to - 1].dy
  }

  /** The gesture that begins at `from` is past the threshold once its events up to `to` are in. */
  predicate CrossedBy(h: seq<Scroll>, from: nat, to: nat)
    requires from <= to <= |h|
  {
    Crosses(SumX(h, from, to), SumY(h, from, to))
  }

  lemma {:induction false} SumsOfPrefix(h: seq<Scroll>, e: Scroll, from: nat, to: nat)
    requires from <= to <= |h|
    ensures SumX(h + [e], from, to) == SumX(h, from, to)
    ensures SumY(h + [e], from, to) == SumY(h, from, to)
  {
    if from < to {
      SumsOfPrefix(h, e, from, to - 1);
    }
  }

  predicate Committed(h: seq<Scroll>, s: nat) {
    exists k :: s < k <= |h| && CrossedBy(h, s, k)
  }

  /** `d` sums up the events from `s` on, and has committed exactly when some prefix of them was past the threshold. */
  predicate Tracks(h: seq<Scroll>, s: nat, d: Detector) {
    && s <= |h|
    && d.accumX == SumX(h, s, |h|) && d.accumY == SumY(h, s, |h|)
    && (d.committed <==> Committed(h, s))
  }

  lemma CommitStep(g: seq<Scroll>, e: Scroll, s: nat)
    requires s <= |g|
    ensures Committed(g + [e], s) <==> Committed(g, s) || CrossedBy(g + [e], s, |g| + 1)
  {
    forall k | s < k <= |g| ensures CrossedBy(g + [e], s, k) == CrossedBy(g, s, k) {
      SumsOfPrefix(g, e, s, k);
    }
    assert Committed(g, s) ==> exists k :: s < k <= |g| && CrossedBy(g + [e], s, k);
  }

  lemma FeedContinues(g: seq<Scroll>, e: Scroll, s: nat, d: Detector)
    requires Tracks(g, s, d) && d.lastAt.Some? && e.at <= d.lastAt.value + GAP
    ensures Tracks(g + [e], s, Feed(d, e.dx, e.dy, e.at).0)
  {
    SumsOfPrefix(g, e, s, |g|);
    CommitStep(g, e, s);
    hide Crosses;
  }

  lemma FeedStarts(g: seq<Scroll>, e: Scroll, d: Detector)
    requires d.lastAt.Some? ==> e.at > d.lastAt.value + GAP
    ensures Tracks(g + [e], |g|, Feed(d, e.dx, e.dy, e.at).0)
  {
    var h := g + [e];
    assert SumX(h, |g|, |g|) == 0.0 && SumY(h, |g|, |g|) == 0.0;
    CommitStep(g, e, |g|);
    hide Crosses;
  }

  /**
   The detector's state is that of the last gesture alone: its sums are the sums over the maximal
   run of events on one surface no more than 200 ms apart, and it has committed exactly when some
   prefix of that run was past the threshold.
  */
  lemma {:induction false} AccumulatorIsLastGesture(h: seq<Scroll>)
    requires h != []
    ensures Tracks(h, GestureStart(h), Run(h).detector)
    ensures Run(h).detector.lastAt == Some(h[|h| - 1].at) && Run(h).surface == Some(h[|h| - 1].surface)
  {
    var g, e := h[..|h| - 1], h[|h| - 1];
    assert h == g + [e];
    if g == [] {
      FeedStarts(g, e, IDLE);
    } else {
      AccumulatorIsLastGesture(g);
      var before := Run(g);
      if Linked(h, |g|) {
        FeedContinues(g, e, GestureStart(g), before.detector);
      } else {
        FeedStarts(g, e, if before.surface == Some(e.surface) then before.detector else IDLE);
      }
    }
    hide Tracks, Crosses;
  }

  /**
   A swipe fires on the first event that takes its own gesture past the threshold, and on no other;
   the sign says which way.
  */
  lemma CommitIff(h: seq<Scroll>, e: Scroll)
    ensures var g, action := h + [e], Detect(Run(h), e).1;
            var s, n := GestureStart(g), |h| + 1;
            && (action.Some? <==> CrossedBy(g, s, n) && !exists k :: s < k <= |h| && CrossedBy(g, s, k))
            && (action.Some? ==>
                  action.value == if SumX(g, s, n) > 0.0 then HistoryBack else HistoryForward)
  {
    var g := h + [e];
    assert g[..|g| - 1] == h;
    AccumulatorIsLastGesture(g);
    var s := GestureStart(g);
    if h == [] {
      assert SumX(g, 0, 1) == e.dx && SumY(g, 0, 1) == e.dy;
      return;
    }
    AccumulatorIsLastGesture(h);
    if Linked(g, |h|) {
      forall k | s < k <= |h| ensures CrossedBy(g, s, k) == CrossedBy(h, s, k) {
        SumsOfPrefix(h, e, s, k);
      }
      SumsOfPrefix(h, e, s, |h|);
    }
  }

  /** Past the threshold: at least 150 to either side, and by more than twice what the fingers moved vertically. */
  lemma CrossesIff(h: seq<Scroll>, from: nat, to: nat)
    requires from <= to <= |h|
    ensures var x, y := SumX(h, from, to), SumY(h, from, to);
            CrossedBy(h, from, to)
            <==> (x >= 150.0 && -x < 2.0 * y < x) || (x <= -150.0 && x < 2.0 * y < -x)
  {
  }

  predicate FiresAt(h: seq<Scroll>, i: nat)
    requires i < |h|
  {
    Detect(Run(h[..i]), h[i]).1.Some?
  }

  lemma {:induction false} GestureOfPrefix(h: seq<Scroll>, i: nat, j: nat)
    requires i < j < |h| && (forall k :: i < k <= j ==> Linked(h, k))
    ensures GestureStart(h[..i + 1]) == GestureStart(h[..j + 1])
  {
    assert h[..j + 1][..j] == h[..j];
    assert Linked(h[..j + 1], j) == Linked(h, j);
    if i + 1 < j {
      GestureOfPrefix(h, i, j - 1);
    }
  }

  lemma {:induction false} PrefixSums(h: seq<Scroll>, from: nat, to: nat, m: nat)
    requires from <= to <= m <= |h|
    ensures SumX(h[..m], from, to) == SumX(h, from, to) && SumY(h[..m], from, to) == SumY(h, from, to)
  {
    if from < to {
      PrefixSums(h, from, to - 1, m);
    }
  }

  lemma PrefixCrossing(h: seq<Scroll>, s: nat, m: nat, n: nat)
    requires s <= m <= n <= |h|
    ensures CrossedBy(h[..m], s, m) == CrossedBy(h[..n], s, m)
  {
    PrefixSums(h, s, m, m);
    PrefixSums(h, s, m, n);
  }

  lemma SecondNeverFires(h: seq<Scroll>, i: nat, j: nat)
    requires i < j < |h| && FiresAt(h, i) && (forall k :: i < k <= j ==> Linked(h, k))
    ensures !FiresAt(h, j)
  {
    GestureOfPrefix(h, i, j);
    hide Detect, CrossedBy, Linked, Run, ActionOf, GestureStart, SumX, StartsGesture;
    assert h[..i] + [h[i]] == h[..i + 1] && h[..j] + [h[j]] == h[..j + 1];
    CommitIff(h[..i], h[i]);
    CommitIff(h[..j], h[j]);
    PrefixCrossing(h, GestureStart(h[..i + 1]), i + 1, j + 1);
  }

  /** One gesture navigates at most once: between two swipes the fingers rested or moved to another surface. */
  lemma OneSwipePerGesture(h: seq<Scroll>, i: nat, j: nat)
    requires i < j < |h| && FiresAt(h, i) && FiresAt(h, j)
    ensures exists k :: i < k <= j && !Linked(h, k)
  {
    hide FiresAt, Linked;
    if forall k :: i < k <= j ==> Linked(h, k) {
      SecondNeverFires(h, i, j);
    }
  }

  /** The detector as the application keeps it, one for all surfaces. */
  class SwipeDetector {
    var accumX: real
    var accumY: real
    var lastAt: Option<nat>
    var committed: bool
    var surface: Option<Surface>

    ghost function Model(): Swipe
      reads this
    {
      Swipe(Detector(accumX, accumY, lastAt, committed), surface)
    }

    constructor ()
      ensures Model() == Run([])
    {
      accumX, accumY, lastAt, committed, surface := 0.0, 0.0, None, false, None;
    }

    method FeedScroll(dx: real, dy: real, now: nat) returns (action: Option<Action>)
      modifies this
      ensures surface == old(surface)
      ensures (Model().detector, action) == Feed(old(Model()).detector, dx, dy, now)
    {
      var resumed := lastAt.None? || Max(now - lastAt.value, 0) > GAP;
      if resumed {
        accumX, accumY := 0.0, 0.0;
        committed := false;
      }
      lastAt := Some(now);
      accumX := accumX + dx;
      accumY := accumY + dy;
      if committed {
        return None;
      }
      if Crosses(accumX, accumY) {
        committed := true;
        return Some(ActionOf(accumX));
      }
      return None;
    }

    /** `swallowed` is what the scroll handlers do with it: a committed gesture never reaches the page. */
    method DetectSwipe(ghost h: seq<Scroll>, e: Scroll) returns (action: Option<Action>, swallowed: bool)
      requires Model() == Run(h)
      modifies this
      ensures Model() == Run(h + [e]) && action == Detect(Run(h), e).1
      ensures swallowed == Committed(h + [e], GestureStart(h + [e]))
    {
      if surface != Some(e.surface) {
        accumX, accumY, lastAt, committed := 0.0, 0.0, None, false;
        surface := Some(e.surface);
      }
      action := FeedScroll(e.dx, e.dy, e.at);
      swallowed := action.Some? || committed;
      assert (h + [e])[..|h|] == h;
      AccumulatorIsLastGesture(h + [e]);
    }
  }

  // ---- wheel momentum ---------------------------------------------------------------------------

  const GRACE: nat := 30_000_000
  const DECAY: real := 0.92
  const MIN_VEL: real := 8.0

  /** Velocity in engine units and the time of the last forwarded high-resolution scroll. */
  datatype Wheel = Wheel(vx: real, vy: real, lastAt: Option<nat>)

  /** A float-to-integer cast: toward zero. */
  function Trunc(v: real): int {
    if v < 0.0 then -(-v).Floor else v.Floor
  }

  function Decay(v: real): real {
    var d := v * DECAY;
    if Abs(d) < MIN_VEL then 0.0 else d
  }

  /** One decay frame past the grace window: the new state and the scroll to synthesise, `(0, 0)` for none. */
  function Frame(w: Wheel): (Wheel, (int, int)) {
    var vx, vy := Decay(w.vx), Decay(w.vy);
    var d := (Trunc(vx), Trunc(vy));
    (Wheel(vx, vy, if d == (0, 0) then None else w.lastAt), d)
  }

  /** `tick_wheel_momentum`. */
  function Tick(w: Wheel, now: nat): (Wheel, (int, int)) {
    if w.lastAt.None? || Max(now - w.lastAt.value, 0) < GRACE then (w, (0, 0)) else Frame(w)
  }

  /** Ticks at the given times with no input in between, and the scroll they add up to. */
  function Coast(w: Wheel, times: seq<nat>): (Wheel, (int, int)) {
    if times == [] then (w, (0, 0))
    else
      var (u, sum) := Coast(w, times[..|times| - 1]);
      var (v, d) := Tick(u, times[|times| - 1]);
      (v, (sum.0 + d.0, sum.1 + d.1))
  }

  /** A scroll forwarded to the page: high-resolution input sets the velocity, a discrete wheel cancels it. */
  function Noted(dx: int, dy: int, pixel: bool, now: nat): Wheel {
    if pixel then Wheel(dx as real, dy as real, Some(now)) else Wheel(0.0, 0.0, None)
  }

  /** Undisturbed exponential decay. */
  function Ideal(v: real, n: nat): real {
    if n == 0 then v else Ideal(v, n - 1) * DECAY
  }

  /** What is left of `v` after `n` frames: the ideal decay until that falls below the minimum. */
  function Remaining(v: real, n: nat): real {
    if n == 0 || Abs(Ideal(v, n)) >= MIN_VEL then Ideal(v, n) else 0.0
  }

  /** A tick that decays: momentum is armed and the grace window is over. */
  predicate PastGrace(w: Wheel, now: nat) {
    w.lastAt.Some? && now >= w.lastAt.value + GRACE
  }

  /** How many of the ticks are decay frames. */
  function Frames(w: Wheel, times: seq<nat>): nat {
    if times == [] then 0
    else Frames(w, times[..|times| - 1]) + (if PastGrace(w, times[|times| - 1]) then 1 else 0)
  }

  lemma {:induction false} IdealFalls(v: real, n: nat)
    requires Abs(Ideal(v, n)) >= MIN_VEL
    ensures Abs(v) >= Abs(Ideal(v, n)) + 0.64 * (n as real)
  {
    if n > 0 {
      var before := Ideal(v, n - 1);
      assert Abs(before * DECAY) == Abs(before) * DECAY;
      IdealFalls(v, n - 1);
    }
  }

  lemma DecayRemaining(v: real, n: nat)
    ensures Decay(Remaining(v, n)) == Remaining(v, n + 1)
  {
  }

  /** The scroll `n` frames of decay from `v` add up to on one axis. */
  function Emitted(v: real, n: nat): int {
    if n == 0 then 0 else Emitted(v, n - 1) + Trunc(Remaining(v, n))
  }

  /** Some axis has not fallen below the minimum yet. */
  predicate Moving(vx: real, vy: real, n: nat) {
    n == 0 || Abs(Ideal(vx, n)) >= MIN_VEL || Abs(Ideal(vy, n)) >= MIN_VEL
  }

  /** The state `n` frames on: each axis at what remains of it, and disarmed once neither moves. */
  function AfterFrames(w: Wheel, n: nat): Wheel {
    if Moving(w.vx, w.vy, n) then Wheel(Remaining(w.vx, n), Remaining(w.vy, n), w.lastAt) else Wheel(0.0, 0.0, None)
  }

  lemma TruncIsZeroOnlyAtRest(v: real, n: nat)
    requires n > 0
    ensures Trunc(Remaining(v, n)) == 0 <==> Abs(Ideal(v, n)) < MIN_VEL
    ensures Abs(Ideal(v, n)) < MIN_VEL ==> Remaining(v, n) == 0.0
    ensures n > 1 && Abs(Ideal(v, n - 1)) < MIN_VEL ==> Abs(Ideal(v, n)) < MIN_VEL
  {
  }

  lemma FrameAdvances(w: Wheel, n: nat, now: nat)
    requires n > 0 && w.lastAt.Some? && now >= w.lastAt.value + GRACE
    ensures Tick(AfterFrames(w, n - 1), now)
            == (AfterFrames(w, n), (Trunc(Remaining(w.vx, n)), Trunc(Remaining(w.vy, n))))
  {
    DecayRemaining(w.vx, n - 1);
    DecayRemaining(w.vy, n - 1);
    TruncIsZeroOnlyAtRest(w.vx, n);
    TruncIsZeroOnlyAtRest(w.vy, n);
    hide Decay, Remaining, Trunc, Abs, Ideal;
  }

  lemma GraceWaits(w: Wheel, n: nat, now: nat)
    requires !PastGrace(w, now)
    ensures Tick(AfterFrames(w, n), now) == (AfterFrames(w, n), (0, 0))
  {
  }

  /**
   Momentum from any velocity under ticks at any times: only those past the grace window count, each
   axis follows its ideal decay over them until that falls below 8 and is 0 from then on, and the
   machine disarms in the first frame in which both have.
  */
  lemma {:induction false} CoastFollowsIdeal(w: Wheel, times: seq<nat>)
    ensures var n := Frames(w, times);
            Coast(w, times) == (AfterFrames(w, n), (Emitted(w.vx, n), Emitted(w.vy, n)))
  {
    if times != [] {
      var before, now := times[..|times| - 1], times[|times| - 1];
      CoastFollowsIdeal(w, before);
      if PastGrace(w, now) {
        FrameAdvances(w, Frames(w, times), now);
      } else {
        GraceWaits(w, Frames(w, before), now);
      }
      hide AfterFrames, Remaining, Trunc, Tick;
    } else {
      assert AfterFrames(w, 0) == w;
    }
  }

  /**
   Momentum always stops: from `w` it is disarmed after any number of decay frames of which 0.64 each
   exceed the larger velocity less 8.
  */
  lemma MomentumStops(w: Wheel, times: seq<nat>)
    requires var n := Frames(w, times);
             n > 0 && Abs(w.vx) < MIN_VEL + 0.64 * (n as real) && Abs(w.vy) < MIN_VEL + 0.64 * (n as real)
    ensures Coast(w, times).0 == Wheel(0.0, 0.0, None)
  {
    var n := Frames(w, times);
    CoastFollowsIdeal(w, times);
    if Abs(Ideal(w.vx, n)) >= MIN_VEL { IdealFalls(w.vx, n); }
    if Abs(Ideal(w.vy, n)) >= MIN_VEL { IdealFalls(w.vy, n); }
  }

  /** Zero, or of `v`'s sign and no larger than `bound`. */
  predicate Along(v: real, total: int, bound: real) {
    && (v >= 0.0 ==> 0.0 <= total as real <= bound)
    && (v <= 0.0 ==> -bound <= total as real <= 0.0)
  }

  lemma {:induction false} EmittedBounded(v: real, n: nat)
    ensures Along(v, Emitted(v, n), 11.5 * (Abs(v) - Abs(Ideal(v, n))))
    ensures v >= 0.0 ==> Ideal(v, n) >= 0.0
    ensures v <= 0.0 ==> Ideal(v, n) <= 0.0
  {
    if n > 0 {
      EmittedBounded(v, n - 1);
    }
  }

  /**
   However long it coasts, momentum adds at most 11.5 times the velocity it started from, in the same
   direction, on each axis.
  */
  lemma MomentumScrollBounded(w: Wheel, times: seq<nat>)
    ensures var sum := Coast(w, times).1;
            Along(w.vx, sum.0, 11.5 * Abs(w.vx)) && Along(w.vy, sum.1, 11.5 * Abs(w.vy))
  {
    CoastFollowsIdeal(w, times);
    EmittedBounded(w.vx, Frames(w, times));
    EmittedBounded(w.vy, Frames(w, times));
  }

  /**
   What a scroll leaves behind: a discrete wheel step silences momentum for good, whatever ran before;
   and high-resolution input starts it anew, from its own deltas, 30 ms on. The first decay frame adds
   92 % of each delta, cut toward zero, unless that is under 8.
  */
  lemma LastScrollDecides(dx: int, dy: int, at: nat, times: seq<nat>, now: nat)
    ensures Coast(Noted(dx, dy, false, at), times).1 == (0, 0)
    ensures now < at + 30_000_000 ==> Tick(Noted(dx, dy, true, at), now) == (Noted(dx, dy, true, at), (0, 0))
    ensures now >= at + 30_000_000 ==>
              Tick(Noted(dx, dy, true, at), now).1 == (FirstFrame(dx), FirstFrame(dy))
  {
    SilentCoast(times);
  }

  lemma {:induction false} SilentCoast(times: seq<nat>)
    ensures Coast(Wheel(0.0, 0.0, None), times) == (Wheel(0.0, 0.0, None), (0, 0))
  {
    if times != [] {
      SilentCoast(times[..|times| - 1]);
    }
  }

  /** 92 % of `d` toward zero, and nothing if that is under 8 either way. */
  function FirstFrame(d: int): int {
    if -9 < d < 9 then 0 else if d > 0 then 92 * d / 100 else -(92 * -d / 100)
  }

  class WheelMomentum {
    var vx: real
    var vy: real
    var lastAt: Option<nat>

    ghost function Model(): Wheel
      reads this
    {
      Wheel(vx, vy, lastAt)
    }

    constructor ()
      ensures Model() == Wheel(0.0, 0.0, None)
    {
      vx, vy, lastAt := 0.0, 0.0, None;
    }

    method NoteScroll(dx: int, dy: int, pixel: bool, now: nat)
      modifies this
      ensures Model() == Noted(dx, dy, pixel, now)
    {
      if pixel {
        vx, vy := dx as real, dy as real;
        lastAt := Some(now);
      } else {
        vx, vy := 0.0, 0.0;
        lastAt := None;
      }
    }

    /** The synthesised scroll, `(0, 0)` when there is none. */
    method TickWheelMomentum(now: nat) returns (dx: int, dy: int)
      modifies this
      ensures (Model(), (dx, dy)) == Tick(old(Model()), now)
    {
      if lastAt.None? || Max(now - lastAt.value, 0) < GRACE {
        return 0, 0;
      }
      vx := vx * DECAY;
      vy := vy * DECAY;
      if Abs(vx) < MIN_VEL { vx := 0.0; }
      if Abs(vy) < MIN_VEL { vy := 0.0; }
      dx, dy := Trunc(vx), Trunc(vy);
      if dx == 0 && dy == 0 {
        lastAt := None;
      }
    }
  }
}
