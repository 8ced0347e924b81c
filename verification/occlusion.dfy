/**
 The sleep policy of the main window: the compositor's suspend signal behind a debounce, the
 present-time heuristic over a rolling history, and the wake probes that let a sleeping window
 test whether it is visible again.

 Time is in milliseconds, samples in microseconds. Every event carries the time that passed
 since the previous one.
*/
module Occlusion {
  import opened Options
  import opened Gpu

  const OCCLUDE_SLEEP_DEBOUNCE: nat := 200
  const SLOW_PRESENT_THRESHOLD_US: nat := 100_000
  const FAST_PRESENT_THRESHOLD_US: nat := 30_000
  const PRESENT_HISTORY_SIZE: nat := 5
  const SLOW_FRAMES_TO_OCCLUDE: nat := 3
  const IMMEDIATE_OCCLUDE_THRESHOLD_US: nat := 500_000
  const OCCLUSION_PROBE_INTERVAL: nat := 2_000

  datatype Policy = Active | Sleeping

  /** Which signal took the window from Active to Sleeping last. */
  datatype Cause = Compositor | Heuristic

  datatype Sleep = Sleep(
    occluded: bool, sleepDeadline: Option<nat>, policy: Policy,
    history: seq<nat>, nextProbe: Option<nat>, probePending: bool,
    drifted: bool, redraw: bool, clock: nat,
    // the fields below only record the run
    cause: Cause, samples: seq<nat>, probes: seq<nat>, bypasses: nat)

  // ---- the rolling history ----------------------------------------------------------------------

  /** The newest `n` entries. */
  function LastN(h: seq<nat>, n: nat): (r: seq<nat>)
    ensures |r| <= n && |r| <= |h|
  {
    if |h| <= n then h else h[|h| - n..]
  }

  function CountAbove(h: seq<nat>, threshold: nat): (c: nat)
    ensures c <= |h|
  {
    if h == [] then 0 else (if h[0] > threshold then 1 else 0) + CountAbove(h[1..], threshold)
  }

  /** `record_present_us`, in place. */
  method RecordPresentUs(history: seq<nat>, presentUs: nat) returns (h: seq<nat>)
    ensures h == LastN(history + [presentUs], PRESENT_HISTORY_SIZE)
  {
    h := history + [presentUs];
    while |h| > PRESENT_HISTORY_SIZE
      invariant |h| <= |history| + 1
      invariant h == (history + [presentUs])[|history| + 1 - |h|..]
      invariant |h| >= PRESENT_HISTORY_SIZE || h == history + [presentUs]
    {
      h := h[1..];
    }
  }

  /** Trimming on every push is the same as trimming the whole stream of samples once. */
  lemma LastNOfStream(samples: seq<nat>, us: nat, n: nat)
    requires n > 0
    ensures LastN(LastN(samples, n) + [us], n) == LastN(samples + [us], n)
  {
  }

  predicate SlowOnce(h: seq<nat>) {
    exists i :: 0 <= i < |h| && h[i] > 100_000
  }

  predicate SlowTwice(h: seq<nat>) {
    exists i, j :: 0 <= i < j < |h| && h[i] > 100_000 && h[j] > 100_000
  }

  predicate SlowThrice(h: seq<nat>) {
    exists i, j, k :: 0 <= i < j < k < |h| && h[i] > 100_000 && h[j] > 100_000 && h[k] > 100_000
  }

  lemma {:induction false} CountIff(h: seq<nat>)
    ensures CountAbove(h, 100_000) >= 1 <==> SlowOnce(h)
    ensures CountAbove(h, 100_000) >= 2 <==> SlowTwice(h)
    ensures CountAbove(h, 100_000) >= 3 <==> SlowThrice(h)
  {
    if h != [] {
      CountIff(h[1..]);
      SlowAgain(h);
      hide SlowOnce, SlowTwice, SlowThrice;
    }
  }

  /** A slow sample in front makes one more of them. */
  lemma SlowAgain(h: seq<nat>)
    requires h != []
    ensures SlowOnce(h) <==> h[0] > 100_000 || SlowOnce(h[1..])
    ensures SlowTwice(h) <==> (h[0] > 100_000 && SlowOnce(h[1..])) || SlowTwice(h[1..])
    ensures SlowThrice(h) <==> (h[0] > 100_000 && SlowTwice(h[1..])) || SlowThrice(h[1..])
  {
    SlowLater(h);
    SlowBefore(h);
    hide SlowOnce, SlowTwice, SlowThrice;
  }

  lemma SlowLater(h: seq<nat>)
    requires h != []
    ensures h[0] > 100_000 || SlowOnce(h[1..]) ==> SlowOnce(h)
    ensures (h[0] > 100_000 && SlowOnce(h[1..])) || SlowTwice(h[1..]) ==> SlowTwice(h)
    ensures (h[0] > 100_000 && SlowTwice(h[1..])) || SlowThrice(h[1..]) ==> SlowThrice(h)
  {
    var rest := h[1..];
    if i :| 0 <= i < |rest| && rest[i] > 100_000 {
      assert h[i + 1] > 100_000;
    }
    if i, j :| 0 <= i < j < |rest| && rest[i] > 100_000 && rest[j] > 100_000 {
      assert h[i + 1] > 100_000 && h[j + 1] > 100_000;
    }
    if i, j, k :| 0 <= i < j < k < |rest| && rest[i] > 100_000 && rest[j] > 100_000 && rest[k] > 100_000 {
      assert h[i + 1] > 100_000 && h[j + 1] > 100_000 && h[k + 1] > 100_000;
    }
  }

  lemma SlowBefore(h: seq<nat>)
    requires h != []
    ensures SlowOnce(h) ==> h[0] > 100_000 || SlowOnce(h[1..])
    ensures SlowTwice(h) ==> (h[0] > 100_000 && SlowOnce(h[1..])) || SlowTwice(h[1..])
    ensures SlowThrice(h) ==> (h[0] > 100_000 && SlowTwice(h[1..])) || SlowThrice(h[1..])
  {
    var rest := h[1..];
    if i :| 0 <= i < |h| && h[i] > 100_000 {
      if i > 0 { assert rest[i - 1] > 100_000; }
    }
    if i, j :| 0 <= i < j < |h| && h[i] > 100_000 && h[j] > 100_000 {
      assert rest[j - 1] > 100_000;
      if i > 0 { assert rest[i - 1] > 100_000; }
    }
    if i, j, k :| 0 <= i < j < k < |h| && h[i] > 100_000 && h[j] > 100_000 && h[k] > 100_000 {
      assert rest[j - 1] > 100_000 && rest[k - 1] > 100_000;
      if i > 0 { assert rest[i - 1] > 100_000; }
    }
  }

  predicate LooksOccluded(history: seq<nat>, us: nat) {
    || us > IMMEDIATE_OCCLUDE_THRESHOLD_US
    || CountAbove(history, SLOW_PRESENT_THRESHOLD_US) >= SLOW_FRAMES_TO_OCCLUDE
  }

  // ---- transitions ------------------------------------------------------------------------------

  /** `decide_paint_policy`: media activity is not consulted. */
  function DecidePaintPolicy(occluded: bool): Policy {
    if occluded then Sleeping else Active
  }

  /** `recompute_paint_policy`. `cause` is recorded on a transition to Sleeping. */
  function Recompute(s: Sleep, cause: Cause): Sleep {
    var policy := DecidePaintPolicy(s.occluded);
    if policy == s.policy then s
    else s.(policy := policy,
            redraw := s.redraw || policy.Active?,
            cause := if policy.Sleeping? then cause else s.cause)
  }

  /** Forget the evidence: the window is believed visible. */
  function Reveal(s: Sleep): Sleep {
    Recompute(s.(occluded := false, history := [], samples := [], nextProbe := None), Compositor)
  }

  /** `observe_present_us`. */
  function Observe(s: Sleep, us: nat): Sleep {
    var t := s.(history := LastN(s.history + [us], PRESENT_HISTORY_SIZE), samples := s.samples + [us]);
    if t.policy.Sleeping? then
      if us < FAST_PRESENT_THRESHOLD_US then Reveal(t)
      else t.(nextProbe := Some(t.clock + OCCLUSION_PROBE_INTERVAL))
    else if !t.occluded && LooksOccluded(t.history, us) then
      Recompute(t.(occluded := true, nextProbe := Some(t.clock + OCCLUSION_PROBE_INTERVAL)), Heuristic)
    else t
  }

  // ---- one paint --------------------------------------------------------------------------------

  /** What the body of a paint did once the sleep guard let it through. */
  datatype Inner = Idle | Drew(outcome: Outcome, liveDrift: bool)

  /** The worker's finished present, if one is waiting, is looked at before the guard. */
  function Polled(s: Sleep, stats: Option<nat>): Sleep {
    var t := s.(probePending := false);
    if stats.Some? then Observe(t, stats.value) else t
  }

  /** The sleep guard. `probe` is the probe flag as it was when the paint began. */
  predicate Admitted(polled: Sleep, probe: bool) {
    polled.policy.Active? || polled.drifted || probe
  }

  /** A paint the guard lets through only because of its probe. */
  predicate Bypass(polled: Sleep) {
    polled.policy.Sleeping? && !polled.drifted
  }

  function DrawnSleep(polled: Sleep, inner: Inner): Sleep {
    match inner
    case Idle => polled
    case Drew(outcome, liveDrift) =>
      var t := polled.(bypasses := if Bypass(polled) then polled.bypasses + 1 else polled.bypasses);
      var u := if outcome.Yes? then Observe(t, outcome.submitDoneUs) else t;
      u.(drifted := liveDrift, redraw := u.redraw || liveDrift)
  }

  /** `paint_chrome_with` as the sleep machine sees it: consume the probe, run the body, re-arm. */
  function PaintSleep(s: Sleep, stats: Option<nat>, inner: Inner): Sleep {
    var polled := Polled(s, stats);
    var admitted := Admitted(polled, s.probePending);
    var t := if admitted then DrawnSleep(polled, inner) else polled;
    Rearmed(t, s.probePending && !(admitted && inner.Drew? && inner.outcome.Yes?))
  }

  /** A probe that never reached the GPU gets another one scheduled, unless a sample already did. */
  function Rearmed(s: Sleep, lostProbe: bool): Sleep {
    if lostProbe && s.policy.Sleeping? && s.nextProbe == None
    then s.(nextProbe := Some(s.clock + OCCLUSION_PROBE_INTERVAL))
    else s
  }

  // ---- events -----------------------------------------------------------------------------------

  datatype Event =
    | Focused
    | OccludedSignal(occluded: bool)
    | Resized(stats: Option<nat>, inner: Inner)
    | RedrawRequested(stats: Option<nat>, inner: Inner)
    | AboutToWait

  datatype Timed = Timed(dt: nat, event: Event)

  /** The sleep section of `about_to_wait`. */
  function Wait(s: Sleep): Sleep {
    var expired := s.sleepDeadline.Some? && s.clock >= s.sleepDeadline.value;
    var t := if expired then s.(occluded := true, sleepDeadline := None) else s;
    ProbeFired(Recompute(t, Compositor))
  }

  /** The wake probe, when one is due. */
  function ProbeFired(u: Sleep): Sleep {
    if u.policy.Sleeping? && u.nextProbe.Some? && u.clock >= u.nextProbe.value
    then u.(probePending := true, nextProbe := None, redraw := true, probes := u.probes + [u.clock])
    else u
  }

  function StepSleep(s: Sleep, t: Timed): Sleep {
    var s := s.(clock := s.clock + t.dt);
    match t.event
    case Focused => (if s.occluded then Reveal(s) else s).(redraw := true)
    case OccludedSignal(occluded) =>
      if occluded then Recompute(s.(sleepDeadline := Some(s.clock + OCCLUDE_SLEEP_DEBOUNCE)), Compositor)
      else Reveal(s.(sleepDeadline := None)).(redraw := true)
    case Resized(stats, inner) => PaintSleep(s.(drifted := true), stats, inner)
    case RedrawRequested(stats, inner) => PaintSleep(s.(redraw := false), stats, inner)
    case AboutToWait => Wait(s)
  }

  function RunSleep(s: Sleep, events: seq<Timed>): Sleep
    decreases |events|
  {
    if events == [] then s else RunSleep(StepSleep(s, events[0]), events[1..])
  }

  function Awake(): Sleep {
    Sleep(false, None, Active, [], None, false, false, false, 0, Compositor, [], [], 0)
  }

  // ---- invariants -------------------------------------------------------------------------------

  /**
   The policy is the belief; an active window has no probe; a window asleep with no probe armed
   or under way (`probe`) was put to sleep by the compositor.
  */
  predicate PolicyInv(s: Sleep, probe: bool) {
    && (s.policy.Sleeping? <==> s.occluded)
    && (s.policy.Active? ==> s.nextProbe == None)
    && (s.policy.Sleeping? && s.nextProbe == None && !probe ==> s.cause.Compositor?)
  }

  /** The history is the tail of everything sampled since it was last cleared. */
  predicate HistoryInv(s: Sleep) {
    s.history == LastN(s.samples, PRESENT_HISTORY_SIZE)
  }

  predicate SpacedApart(times: seq<nat>) {
    forall i, j :: 0 <= i < j < |times| ==> times[i] + OCCLUSION_PROBE_INTERVAL <= times[j]
  }

  /** Probes are spaced by the interval, and each one buys at most one frame past the guard. */
  predicate ProbeInv(s: Sleep, probe: bool) {
    && SpacedApart(s.probes)
    && (forall i :: 0 <= i < |s.probes| ==>
          && s.probes[i] <= s.clock
          && (s.nextProbe.Some? ==> s.probes[i] + OCCLUSION_PROBE_INTERVAL <= s.nextProbe.value))
    && (s.nextProbe.Some? ==> s.nextProbe.value <= s.clock + OCCLUSION_PROBE_INTERVAL)
    && s.bypasses + (if probe then 1 else 0) <= |s.probes|
  }

  /** The invariant while a paint holds the probe flag in a local, `probe`. */
  predicate MidPaintInv(s: Sleep, probe: bool) {
    PolicyInv(s, probe) && HistoryInv(s) && ProbeInv(s, probe)
  }

  predicate SleepInv(s: Sleep) {
    MidPaintInv(s, s.probePending)
  }

  // ---- steps ------------------------------------------------------------------------------------

  /** A sample keeps the invariant, and afterwards no probe flag is needed to explain a heuristic sleep. */
  lemma ObserveKeepsInv(s: Sleep, us: nat, probe: bool)
    requires MidPaintInv(s, probe)
    ensures MidPaintInv(Observe(s, us), probe) && PolicyInv(Observe(s, us), false)
  {
    LastNOfStream(s.samples, us, PRESENT_HISTORY_SIZE);
  }

  /** The heuristic sleeps on a sample exactly when three of the last five, or this one alone, are too slow. */
  lemma ObserveSleepsIff(s: Sleep, us: nat)
    requires SleepInv(s) && s.policy.Active?
    ensures var last := LastN(s.samples + [us], 5);
            Observe(s, us).policy.Sleeping? <==> us > 500_000 || SlowThrice(last)
  {
    CountIff(LastN(s.samples + [us], 5));
    LastNOfStream(s.samples, us, PRESENT_HISTORY_SIZE);
  }

  /** Those five are the newest, in their order, of all taken since the window was last believed visible. */
  lemma HistoryIsNewest(s: Sleep)
    requires SleepInv(s)
    ensures var h, all := s.history, s.samples;
            && |h| == Min(5, |all|)
            && forall k :: |all| - |h| <= k < |all| ==> all[k] == h[k + |h| - |all|]
  {
  }

  /** While asleep, one fast sample wakes and any other keeps a probe coming. */
  lemma ObserveWakesIff(s: Sleep, us: nat)
    requires SleepInv(s) && s.policy.Sleeping?
    ensures var t := Observe(s, us);
            && (t.policy.Active? <==> us < 30_000)
            && (t.policy.Sleeping? ==> t.nextProbe == Some(s.clock + 2_000))
            && (t.policy.Active? ==> t.redraw && t.history == [])
  {
  }

  /** `ObserveKeepsInv` with the two uses of the probe flag apart: who may be asleep, and who may still bypass. */
  lemma ObserveKeepsCredit(s: Sleep, us: nat, probe: bool, credit: bool)
    requires PolicyInv(s, probe) && HistoryInv(s) && ProbeInv(s, credit)
    ensures var t := Observe(s, us);
            PolicyInv(t, false) && HistoryInv(t) && ProbeInv(t, credit)
  {
    LastNOfStream(s.samples, us, PRESENT_HISTORY_SIZE);
  }

  lemma PolledKeepsInv(s: Sleep, stats: Option<nat>)
    requires SleepInv(s)
    ensures MidPaintInv(Polled(s, stats), s.probePending) && !Polled(s, stats).probePending
  {
    var t := s.(probePending := false);
    assert MidPaintInv(t, s.probePending);
    if stats.Some? {
      ObserveKeepsInv(t, stats.value, s.probePending);
    }
  }

  /** The frame spends the probe's credit if it needed it, and only a submission settles the probe. */
  lemma DrawnKeepsInv(s: Sleep, inner: Inner, probe: bool)
    requires MidPaintInv(s, probe) && !s.probePending && Admitted(s, probe)
    ensures var t := DrawnSleep(s, inner);
            && PolicyInv(t, probe && !(inner.Drew? && inner.outcome.Yes?))
            && HistoryInv(t) && ProbeInv(t, false) && !t.probePending
  {
    if inner.Drew? && inner.outcome.Yes? {
      var t := s.(bypasses := if Bypass(s) then s.bypasses + 1 else s.bypasses);
      ObserveKeepsCredit(t, inner.outcome.submitDoneUs, probe, false);
      hide Observe;
    }
  }

  lemma RearmedKeepsInv(s: Sleep, lostProbe: bool)
    requires PolicyInv(s, lostProbe) && HistoryInv(s) && ProbeInv(s, false) && !s.probePending
    ensures SleepInv(Rearmed(s, lostProbe))
  {
  }

  lemma PaintKeepsInv(s: Sleep, stats: Option<nat>, inner: Inner)
    requires SleepInv(s)
    ensures SleepInv(PaintSleep(s, stats, inner))
  {
    hide Observe, Polled, DrawnSleep, Rearmed, PolicyInv, HistoryInv;
    var polled := Polled(s, stats);
    PolledKeepsInv(s, stats);
    if Admitted(polled, s.probePending) {
      DrawnKeepsInv(polled, inner, s.probePending);
      RearmedKeepsInv(DrawnSleep(polled, inner), s.probePending && !(inner.Drew? && inner.outcome.Yes?));
    } else {
      RearmedKeepsInv(polled, s.probePending);
    }
  }

  lemma PaintKeepsClock(s: Sleep, stats: Option<nat>, inner: Inner)
    ensures PaintSleep(s, stats, inner).clock == s.clock
  {
    hide Observe;
    forall t: Sleep, us: nat ensures Observe(t, us).clock == t.clock {
      ObserveKeepsClock(t, us);
    }
  }

  lemma ObserveKeepsClock(s: Sleep, us: nat)
    ensures Observe(s, us).clock == s.clock
  {
  }

  /** Time passing, and the two flags a window event sets before its paint, are not part of the invariant. */
  lemma FrameKeepsInv(s: Sleep, dt: nat, drifted: bool, redraw: bool)
    requires SleepInv(s)
    ensures SleepInv(s.(clock := s.clock + dt, drifted := drifted, redraw := redraw))
  {
  }

  /** Revealing restores the belief from any state whose probes are in order. */
  lemma RevealKeepsInv(s: Sleep)
    requires SleepInv(s)
    ensures SleepInv(Reveal(s)) && Reveal(s).policy.Active?
  {
  }

  lemma DebounceKeepsInv(s: Sleep, deadline: Option<nat>)
    requires SleepInv(s)
    ensures SleepInv(s.(sleepDeadline := deadline)) && Recompute(s, Compositor) == s
  {
  }

  /** Going to sleep on the compositor's word needs no probe. */
  lemma CommitKeepsInv(s: Sleep)
    requires SleepInv(s)
    ensures SleepInv(Recompute(s.(occluded := true, sleepDeadline := None), Compositor))
  {
  }

  lemma FireKeepsInv(s: Sleep)
    requires SleepInv(s) && s.policy.Sleeping? && s.nextProbe.Some? && s.clock >= s.nextProbe.value
    ensures SleepInv(s.(probePending := true, nextProbe := None, redraw := true, probes := s.probes + [s.clock]))
  {
  }

  lemma WaitKeepsInv(s: Sleep)
    requires SleepInv(s)
    ensures SleepInv(Wait(s))
  {
    hide SleepInv, Recompute;
    var expired := s.sleepDeadline.Some? && s.clock >= s.sleepDeadline.value;
    if expired {
      CommitKeepsInv(s);
    } else {
      DebounceKeepsInv(s, s.sleepDeadline);
    }
    var u := Recompute(if expired then s.(occluded := true, sleepDeadline := None) else s, Compositor);
    if u.policy.Sleeping? && u.nextProbe.Some? && u.clock >= u.nextProbe.value {
      FireKeepsInv(u);
    }
  }

  lemma SignalKeepsInv(s: Sleep, occluded: bool)
    requires SleepInv(s)
    ensures SleepInv(StepSleep(s, Timed(0, Focused)))
    ensures SleepInv(StepSleep(s, Timed(0, OccludedSignal(occluded))))
  {
    hide SleepInv, Recompute, Reveal;
    RevealKeepsInv(s);
    FrameKeepsInv(Reveal(s), 0, Reveal(s).drifted, true);
    FrameKeepsInv(s, 0, s.drifted, true);
    DebounceKeepsInv(s, Some(s.clock + OCCLUDE_SLEEP_DEBOUNCE));
    var armed := s.(sleepDeadline := Some(s.clock + OCCLUDE_SLEEP_DEBOUNCE));
    DebounceKeepsInv(armed, armed.sleepDeadline);
    DebounceKeepsInv(s, None);
    var revealed := Reveal(s.(sleepDeadline := None));
    RevealKeepsInv(s.(sleepDeadline := None));
    FrameKeepsInv(revealed, 0, revealed.drifted, true);
  }

  lemma StepKeepsInv(s: Sleep, t: Timed)
    requires SleepInv(s)
    ensures SleepInv(StepSleep(s, t))
  {
    hide SleepInv, PaintSleep, Wait, Recompute, Reveal;
    var now := s.clock + t.dt;
    match t.event
    case Resized(stats, inner) =>
      FrameKeepsInv(s, t.dt, true, s.redraw);
      PaintKeepsInv(s.(clock := now, drifted := true, redraw := s.redraw), stats, inner);
    case RedrawRequested(stats, inner) =>
      FrameKeepsInv(s, t.dt, s.drifted, false);
      PaintKeepsInv(s.(clock := now, drifted := s.drifted, redraw := false), stats, inner);
    case Focused =>
      FrameKeepsInv(s, t.dt, s.drifted, s.redraw);
      SignalKeepsInv(s.(clock := now), false);
    case OccludedSignal(occluded) =>
      FrameKeepsInv(s, t.dt, s.drifted, s.redraw);
      SignalKeepsInv(s.(clock := now), occluded);
    case AboutToWait =>
      FrameKeepsInv(s, t.dt, s.drifted, s.redraw);
      WaitKeepsInv(s.(clock := now));
  }

  // ---- every run --------------------------------------------------------------------------------

  /**
   At every event boundary: asleep exactly when believed occluded; no probe while active; asleep
   without a probe armed or pending only on the compositor's word; the history is the last five
   samples since it was cleared; wake probes at least two seconds apart; and no more frames past
   the sleep guard than there were probes.
  */
  lemma {:induction false} RunSleepKeepsInv(s: Sleep, events: seq<Timed>)
    requires SleepInv(s)
    ensures var r := RunSleep(s, events);
            SleepInv(r) && r.bypasses <= |r.probes| && SpacedApart(r.probes)
    decreases |events|
  {
    if events != [] {
      StepKeepsInv(s, events[0]);
      RunSleepKeepsInv(StepSleep(s, events[0]), events[1..]);
    }
  }

  /** A paint that ends with no submission and had no finished present to look at. */
  predicate SampleFree(t: Timed) {
    match t.event
    case Resized(stats, inner) => stats == None && !(inner.Drew? && inner.outcome.Yes?)
    case RedrawRequested(stats, inner) => stats == None && !(inner.Drew? && inner.outcome.Yes?)
    case _ => false
  }

  lemma SampleFreePaint(s: Sleep, inner: Inner)
    requires inner.Drew? ==> !inner.outcome.Yes?
    ensures var r := PaintSleep(s, None, inner);
            && r.history == s.history && r.samples == s.samples
            && r.occluded == s.occluded && r.policy == s.policy
  {
    hide Observe;
  }

  lemma SampleFreeStep(s: Sleep, t: Timed)
    requires SampleFree(t)
    ensures var r := StepSleep(s, t);
            && r.history == s.history && r.samples == s.samples
            && r.occluded == s.occluded && r.policy == s.policy
  {
    hide PaintSleep;
    var now := s.(clock := s.clock + t.dt);
    match t.event
    case RedrawRequested(_, inner) => SampleFreePaint(now.(redraw := false), inner);
    case Resized(_, inner) => SampleFreePaint(now.(drifted := true), inner);
  }

  /** Any number of skipped, failed or short-circuited paints is no evidence: history and belief stay. */
  lemma {:induction false} SkippedFramesAreNoEvidence(s: Sleep, events: seq<Timed>)
    requires forall i :: 0 <= i < |events| ==> SampleFree(events[i])
    ensures var r := RunSleep(s, events);
            && r.history == s.history && r.samples == s.samples
            && r.occluded == s.occluded && r.policy == s.policy
    decreases |events|
  {
    if events != [] {
      SampleFreeStep(s, events[0]);
      SkippedFramesAreNoEvidence(StepSleep(s, events[0]), events[1..]);
    }
  }

  /**
   A heuristic sleep is never left without a probe: whatever became of the one already under way, the
   next is pending, with a redraw requested, once the interval has passed.
  */
  lemma HeuristicSleepIsProbed(s: Sleep, lost: Inner)
    requires SleepInv(s) && s.policy.Sleeping? && s.cause.Heuristic?
    requires lost.Idle? || !lost.outcome.Yes?
    ensures var a := StepSleep(s, Timed(0, RedrawRequested(None, lost)));
            var b := StepSleep(a, Timed(OCCLUSION_PROBE_INTERVAL, AboutToWait));
            && b.policy.Sleeping? && b.probePending && b.redraw && SleepInv(b)
  {
    StepKeepsInv(s, Timed(0, RedrawRequested(None, lost)));
    var a := StepSleep(s, Timed(0, RedrawRequested(None, lost)));
    assert a.policy.Sleeping? && a.nextProbe.Some?;
    assert a.nextProbe.value <= a.clock + OCCLUSION_PROBE_INTERVAL;
    StepKeepsInv(a, Timed(OCCLUSION_PROBE_INTERVAL, AboutToWait));
  }

  function Waits(dts: seq<nat>): seq<Timed> {
    seq(|dts|, i requires 0 <= i < |dts| => Timed(dts[i], AboutToWait))
  }

  function Sum(dts: seq<nat>): nat {
    if dts == [] then 0 else dts[0] + Sum(dts[1..])
  }

  /** Left alone, an active window falls asleep exactly when an armed debounce runs out, and then with no probe. */
  lemma {:induction false} DebounceDecidesIff(s: Sleep, dts: seq<nat>)
    requires SleepInv(s) && s.policy.Active?
    ensures var r := RunSleep(s, Waits(dts));
            && (r.policy.Sleeping? <==>
                  dts != [] && s.sleepDeadline.Some? && s.clock + Sum(dts) >= s.sleepDeadline.value)
            && r.nextProbe == None
    decreases |dts|
  {
    if dts != [] {
      assert Waits(dts)[1..] == Waits(dts[1..]);
      var t := StepSleep(s, Timed(dts[0], AboutToWait));
      StepKeepsInv(s, Timed(dts[0], AboutToWait));
      if t.policy.Active? {
        DebounceDecidesIff(t, dts[1..]);
      } else {
        StaysAsleep(t, dts[1..]);
      }
    }
  }

  lemma {:induction false} StaysAsleep(s: Sleep, dts: seq<nat>)
    requires s.policy.Sleeping? && s.occluded && s.nextProbe == None
    ensures var r := RunSleep(s, Waits(dts)); r.policy.Sleeping? && r.nextProbe == None
    decreases |dts|
  {
    if dts != [] {
      assert Waits(dts)[1..] == Waits(dts[1..]);
      StaysAsleep(StepSleep(s, Timed(dts[0], AboutToWait)), dts[1..]);
    }
  }

  /**
   A focus wakes the window but does not call off a debounce already armed: left alone it stays
   awake exactly until the deadline that was pending before the focus, and then sleeps with no probe
   to bring it back.
  */
  lemma FocusKeepsAwakeIff(s: Sleep, dt: nat, dts: seq<nat>)
    requires SleepInv(s)
    ensures var f := StepSleep(s, Timed(dt, Focused));
            var r := RunSleep(f, Waits(dts));
            && f.policy.Active? && f.redraw
            && (r.policy.Active? <==>
                  !(dts != [] && s.sleepDeadline.Some? && s.clock + dt + Sum(dts) >= s.sleepDeadline.value))
            && r.nextProbe == None
  {
    var f := StepSleep(s, Timed(dt, Focused));
    StepKeepsInv(s, Timed(dt, Focused));
    DebounceDecidesIff(f, dts);
  }

  /**
   A sleeping window lets the frame of a resize through without spending a probe, and that of a plain
   redraw not: a fast sample with the one wakes it, with the other nothing is sampled at all.
  */
  lemma ResizeGetsThrough(s: Sleep, us: nat, liveDrift: bool)
    requires SleepInv(s) && s.policy.Sleeping? && !s.probePending && !s.drifted
    ensures var frame := Drew(Yes(us), liveDrift);
            var r := StepSleep(s, Timed(0, Resized(None, frame)));
            var v := StepSleep(s, Timed(0, RedrawRequested(None, frame)));
            && (r.policy.Active? <==> us < 30_000) && r.bypasses == s.bypasses && r.drifted == liveDrift
            && v == s.(redraw := false)
  {
    hide LooksOccluded, LastN, HistoryInv, ProbeInv;
  }

  /** A reveal wakes the window at once, from whatever put it to sleep, and left alone it stays awake. */
  lemma RevealWakes(s: Sleep, dt: nat, dts: seq<nat>)
    requires SleepInv(s)
    ensures var v := StepSleep(s, Timed(dt, OccludedSignal(false)));
            && v.policy.Active? && !v.occluded && v.redraw && v.history == []
            && v.sleepDeadline == None && v.nextProbe == None
            && RunSleep(v, Waits(dts)).policy.Active?
  {
    StepKeepsInv(s, Timed(dt, OccludedSignal(false)));
    DebounceDecidesIff(StepSleep(s, Timed(dt, OccludedSignal(false))), dts);
  }

  /**
   A hide puts an active window to sleep exactly once 200 ms have passed without another signal,
   counted from the latest hide; until then nothing about it changes.
  */
  lemma HideSleepsIff(s: Sleep, dt: nat, dts: seq<nat>)
    requires SleepInv(s) && s.policy.Active?
    ensures var v := StepSleep(s, Timed(dt, OccludedSignal(true)));
            && v == s.(clock := v.clock, sleepDeadline := v.sleepDeadline)
            && (RunSleep(v, Waits(dts)).policy.Sleeping? <==> dts != [] && Sum(dts) >= 200)
  {
    StepKeepsInv(s, Timed(dt, OccludedSignal(true)));
    DebounceDecidesIff(StepSleep(s, Timed(dt, OccludedSignal(true))), dts);
  }

  /** A reveal within the 200 ms leaves the window as if it had never been hidden. */
  lemma QuickRevealForgetsHide(s: Sleep, dt: nat, dts: seq<nat>, dt': nat)
    requires SleepInv(s) && s.policy.Active? && Sum(dts) < 200
    ensures var v := RunSleep(StepSleep(s, Timed(dt, OccludedSignal(true))), Waits(dts));
            StepSleep(v, Timed(dt', OccludedSignal(false)))
            == StepSleep(s, Timed(dt + Sum(dts) + dt', OccludedSignal(false)))
  {
    var v := StepSleep(s, Timed(dt, OccludedSignal(true)));
    StepKeepsInv(s, Timed(dt, OccludedSignal(true)));
    WaitsPass(v, dts);
  }

  lemma {:induction false} WaitsPass(s: Sleep, dts: seq<nat>)
    requires SleepInv(s) && s.policy.Active?
    requires s.sleepDeadline.Some? ==> s.clock + Sum(dts) < s.sleepDeadline.value
    ensures RunSleep(s, Waits(dts)) == s.(clock := s.clock + Sum(dts))
    decreases |dts|
  {
    if dts != [] {
      assert Waits(dts)[1..] == Waits(dts[1..]);
      StepKeepsInv(s, Timed(dts[0], AboutToWait));
      WaitsPass(StepSleep(s, Timed(dts[0], AboutToWait)), dts[1..]);
    }
  }

  // ---- in place ---------------------------------------------------------------------------------

  class SleepMachine {
    var occluded: bool
    var sleepDeadline: Option<nat>
    var paintPolicy: Policy
    var presentUsHistory: seq<nat>
    var nextProbeAt: Option<nat>
    var probePending: bool
    var surfaceDrifted: bool
    var redrawRequested: bool
    var clock: nat
    ghost var cause: Cause
    ghost var samples: seq<nat>
    ghost var probes: seq<nat>
    ghost var bypasses: nat

    ghost function Model(): Sleep
      reads this
    {
      Sleep(occluded, sleepDeadline, paintPolicy, presentUsHistory, nextProbeAt, probePending,
            surfaceDrifted, redrawRequested, clock, cause, samples, probes, bypasses)
    }

    constructor ()
      ensures Model() == Awake()
    {
      occluded, sleepDeadline, paintPolicy, presentUsHistory := false, None, Active, [];
      nextProbeAt, probePending, surfaceDrifted, redrawRequested, clock := None, false, false, false, 0;
      cause, samples, probes, bypasses := Compositor, [], [], 0;
    }

    method RecomputePaintPolicy(ghost why: Cause)
      modifies this
      ensures Model() == Recompute(old(Model()), why)
    {
      var newPolicy := DecidePaintPolicy(occluded);
      if newPolicy == paintPolicy {
        return;
      }
      paintPolicy := newPolicy;
      if newPolicy.Sleeping? {
        cause := why;
      } else {
        redrawRequested := true;
      }
    }

    method ObservePresentUs(us: nat)
      modifies this
      ensures Model() == Observe(old(Model()), us)
    {
      presentUsHistory := RecordPresentUs(presentUsHistory, us);
      samples := samples + [us];
      if paintPolicy.Sleeping? {
        if us < FAST_PRESENT_THRESHOLD_US {
          ClearOcclusion();
        } else {
          nextProbeAt := Some(clock + OCCLUSION_PROBE_INTERVAL);
        }
        return;
      }
      if !occluded && LooksOccluded(presentUsHistory, us) {
        occluded := true;
        nextProbeAt := Some(clock + OCCLUSION_PROBE_INTERVAL);
        RecomputePaintPolicy(Heuristic);
      }
    }

    method ClearOcclusion()
      modifies this
      ensures Model() == Reveal(old(Model()))
    {
      occluded := false;
      presentUsHistory := [];
      samples := [];
      nextProbeAt := None;
      RecomputePaintPolicy(Compositor);
    }

    /** Take the probe flag, look at a finished present, and apply the sleep guard. */
    method BeginPaint(stats: Option<nat>) returns (probe: bool, admitted: bool)
      modifies this
      ensures Model() == Polled(old(Model()), stats)
      ensures probe == old(probePending) && admitted == Admitted(Model(), probe)
    {
      probe := probePending;
      probePending := false;
      if stats.Some? {
        ObservePresentUs(stats.value);
      }
      admitted := !(paintPolicy.Sleeping? && !surfaceDrifted && !probe);
    }

    /** After a frame: the number the renderer returned with it when it was submitted, then the surface-drift check. */
    method FinishDraw(outcome: Outcome, liveDrift: bool)
      modifies this
      ensures Model() == DrawnSleep(old(Model()), Drew(outcome, liveDrift))
    {
      hide Observe;
      if paintPolicy.Sleeping? && !surfaceDrifted {
        bypasses := bypasses + 1;
      }
      if outcome.Yes? {
        ObservePresentUs(outcome.submitDoneUs);
      }
      if liveDrift {
        surfaceDrifted := true;
        redrawRequested := true;
      } else {
        surfaceDrifted := false;
      }
    }

    method EndPaint(probe: bool, submitted: bool)
      modifies this
      ensures Model() == Rearmed(old(Model()), probe && !submitted)
    {
      if probe && !submitted && paintPolicy.Sleeping? && nextProbeAt == None {
        nextProbeAt := Some(clock + OCCLUSION_PROBE_INTERVAL);
      }
    }

    method OnFocused(dt: nat)
      modifies this
      ensures Model() == StepSleep(old(Model()), Timed(dt, Focused))
    {
      clock := clock + dt;
      if occluded {
        ClearOcclusion();
      }
      redrawRequested := true;
    }

    method OnOccluded(dt: nat, isOccluded: bool)
      modifies this
      ensures Model() == StepSleep(old(Model()), Timed(dt, OccludedSignal(isOccluded)))
    {
      hide Recompute, Reveal;
      clock := clock + dt;
      if isOccluded {
        sleepDeadline := Some(clock + OCCLUDE_SLEEP_DEBOUNCE);
        RecomputePaintPolicy(Compositor);
      } else {
        sleepDeadline := None;
        ClearOcclusion();
        redrawRequested := true;
      }
    }

    method OnAboutToWait(dt: nat)
      modifies this
      ensures Model() == StepSleep(old(Model()), Timed(dt, AboutToWait))
    {
      hide Recompute, ProbeFired;
      clock := clock + dt;
      if sleepDeadline.Some? && clock >= sleepDeadline.value {
        occluded := true;
        sleepDeadline := None;
      }
      RecomputePaintPolicy(Compositor);
      FireDueProbe();
    }

    method FireDueProbe()
      modifies this
      ensures Model() == ProbeFired(old(Model()))
    {
      if paintPolicy.Sleeping? && nextProbeAt.Some? && clock >= nextProbeAt.value {
        probePending := true;
        nextProbeAt := None;
        redrawRequested := true;
        probes := probes + [clock];
      }
    }
  }
}
