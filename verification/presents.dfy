/**
 The sleep policy of the main window together with the render worker whose timings it judges by.

 Two numbers of a frame become samples, and neither belongs to the paint that takes it: a paint begins
 by polling the report of an earlier frame for its present time, and the number that comes back with a
 submitted frame is the previous frame's submit time.
*/
module Presents {
  import opened Options
  import opened Gpu
  import opened Occlusion

  /** The two together. */
  datatype Sleeper = Sleeper(sleep: Sleep, worker: Worker)

  /**
   What the body of a paint does if the sleep guard lets it: nothing, or a frame. `late` is a report
   that arrives after the paint's own poll and before the renderer's.
  */
  datatype Body = Nothing | Frame(late: Option<Stats>, surface: Surface, liveDrift: bool)

  datatype Event =
    | Reported(stats: Stats)
    | Painted(dt: nat, resized: bool, body: Body)
    | Other(timed: Timed)

  function PresentSample(stats: Option<Stats>): Option<nat> {
    if stats.Some? then Some(stats.value.presentUs) else None
  }

  /** The worker once a paint has polled it and the report that may have slipped in has arrived. */
  function Asked(w: Worker, late: Option<Stats>): Worker {
    if late.Some? then Report(Poll(w).0, late.value) else Poll(w).0
  }

  /** The body as the sleep machine sees it. */
  function InnerOf(w: Worker, body: Body): Inner {
    match body
    case Nothing => Inner.Idle
    case Frame(late, surface, liveDrift) => Drew(Answer(Asked(w, late), surface).1, liveDrift)
  }

  /** Whether the sleep guard lets a paint through. */
  predicate Admits(m: Sleeper) {
    Admitted(Polled(m.sleep, PresentSample(Poll(m.worker).1)), m.sleep.probePending)
  }

  function PaintBoth(m: Sleeper, body: Body): Sleeper {
    Sleeper(
      PaintSleep(m.sleep, PresentSample(Poll(m.worker).1), InnerOf(m.worker, body)),
      if Admits(m) && body.Frame? then Answer(Asked(m.worker, body.late), body.surface).0 else Poll(m.worker).0)
  }

  function StepBoth(m: Sleeper, e: Event): Sleeper {
    match e
    case Reported(st) => m.(worker := Report(m.worker, st))
    case Painted(dt, resized, body) =>
      var now := m.sleep.(clock := m.sleep.clock + dt);
      PaintBoth(m.(sleep := if resized then now.(drifted := true) else now.(redraw := false)), body)
    case Other(t) =>
      if t.event.Focused? || t.event.OccludedSignal? || t.event.AboutToWait?
      then m.(sleep := StepSleep(m.sleep, t)) else m
  }

  function RunBoth(m: Sleeper, events: seq<Event>): Sleeper
    decreases |events|
  {
    if events == [] then m else RunBoth(StepBoth(m, events[0]), events[1..])
  }

  predicate Inv(m: Sleeper) {
    SleepInv(m.sleep) && WorkerInv(m.worker)
  }

  // ---- every run --------------------------------------------------------------------------------

  lemma AskedKeepsInv(w: Worker, late: Option<Stats>)
    requires WorkerInv(w)
    ensures WorkerInv(Poll(w).0) && WorkerInv(Asked(w, late))
  {
    WorkerStepsKeepInv(w, NO_STATS, Refused);
    if late.Some? {
      WorkerStepsKeepInv(Poll(w).0, late.value, Refused);
    }
  }

  lemma PaintBothKeepsInv(m: Sleeper, body: Body)
    requires Inv(m)
    ensures Inv(PaintBoth(m, body))
  {
    PaintKeepsInv(m.sleep, PresentSample(Poll(m.worker).1), InnerOf(m.worker, body));
    hide SleepInv, WorkerInv, PaintSleep, Polled;
    AskedKeepsInv(m.worker, if body.Frame? then body.late else None);
    if body.Frame? {
      WorkerStepsKeepInv(Asked(m.worker, body.late), NO_STATS, body.surface);
    }
  }

  lemma StepBothKeepsInv(m: Sleeper, e: Event)
    requires Inv(m)
    ensures Inv(StepBoth(m, e))
  {
    hide SleepInv, WorkerInv, StepSleep, PaintBoth;
    match e
    case Reported(st) => WorkerStepsKeepInv(m.worker, st, Refused);
    case Painted(dt, resized, body) =>
      var drifted, redraw := resized || m.sleep.drifted, resized && m.sleep.redraw;
      FrameKeepsInv(m.sleep, dt, drifted, redraw);
      PaintBothKeepsInv(
        m.(sleep := m.sleep.(clock := m.sleep.clock + dt, drifted := drifted, redraw := redraw)), body);
    case Other(t) => StepKeepsInv(m.sleep, t);
  }

  /** Wired to a real worker, every run keeps the sleep machine's invariants and one frame in flight. */
  lemma {:induction false} RunBothKeepsInv(m: Sleeper, events: seq<Event>)
    requires Inv(m)
    ensures Inv(RunBoth(m, events))
    decreases |events|
  {
    if events != [] {
      StepBothKeepsInv(m, events[0]);
      RunBothKeepsInv(StepBoth(m, events[0]), events[1..]);
    }
  }

  /** In particular from the start, with an idle worker. */
  lemma EveryRunKeepsInv(events: seq<Event>)
    ensures var r := RunBoth(Sleeper(Awake(), FreshWorker()), events);
            && (r.sleep.policy.Sleeping? <==> r.sleep.occluded)
            && r.sleep.bypasses <= |r.sleep.probes| && SpacedApart(r.sleep.probes)
            && r.worker.inFlight <= 1 && r.worker.submitted - |r.worker.reports| <= 1
  {
    RunBothKeepsInv(Sleeper(Awake(), FreshWorker()), events);
    hide RunBoth;
  }

  // ---- what a probe learns ----------------------------------------------------------------------

  /** Whether a paint that the guard lets through hands a frame to the worker, and the number it gets back. */
  function Submission(w: Worker, body: Body): Option<nat> {
    var inner := InnerOf(w, body);
    if inner.Drew? && inner.outcome.Yes? then Some(inner.outcome.submitDoneUs) else None
  }

  /**
   A report that slips in between the two polls lets the frame through, which would else be refused, and
   brings its submit time along; but the second poll drains it, so its present time is never judged,
   however slow or fast, neither by this paint nor by a later one.
  */
  lemma LateReportIsNotJudged(m: Sleeper, st: Stats, presentUs: nat, surface: Surface, liveDrift: bool)
    requires Inv(m) && m.worker.inFlight == 1 && m.worker.channel == []
    ensures var w, other := m.worker, st.(presentUs := presentUs);
            && Submission(w, Frame(None, surface, liveDrift)) == None
            && Submission(w, Frame(Some(st), surface, liveDrift))
               == (if surface.Acquired? then Some(st.submitUs) else None)
            && PaintBoth(m, Frame(Some(st), surface, liveDrift)).sleep
               == PaintBoth(m, Frame(Some(other), surface, liveDrift)).sleep
            && (Admits(m) ==> PaintBoth(m, Frame(Some(st), surface, liveDrift)).worker.channel == [])
  {
    hide PaintSleep, Polled;
  }

  /** A resize reaches the worker from any sleep, if only the worker is idle and a texture can be had. */
  lemma ResizeReachesWorker(m: Sleeper, dt: nat, liveDrift: bool)
    requires Inv(m) && |m.worker.reports| == m.worker.submitted
    ensures var r := StepBoth(m, Painted(dt, true, Frame(None, Acquired, liveDrift)));
            r.worker.submitted == m.worker.submitted + 1 && r.sleep.drifted == liveDrift
            && r.sleep.clock == m.sleep.clock + dt
  {
    hide PaintSleep, Polled, SleepInv, WorkerInv;
    var s := m.sleep.(clock := m.sleep.clock + dt, drifted := true);
    var stats := PresentSample(Poll(m.worker).1);
    NothingUnpresented(m.worker);
    PolledKeeps(s, stats);
    DrawnKeeps(s, stats, Poll(m.worker).0.last.submitUs, liveDrift);
  }

  lemma PolledKeeps(s: Sleep, stats: Option<nat>)
    ensures Polled(s, stats).drifted == s.drifted && Polled(s, stats).clock == s.clock
  {
  }

  lemma DrawnKeeps(s: Sleep, stats: Option<nat>, us: nat, liveDrift: bool)
    requires s.drifted
    ensures var r := PaintSleep(s, stats, Drew(Yes(us), liveDrift)); r.drifted == liveDrift && r.clock == s.clock
  {
    hide Polled, Observe;
    PolledKeeps(s, stats);
    forall t: Sleep ensures Observe(t, us).clock == t.clock {
      ObserveKeepsClock(t, us);
    }
  }

  predicate FastReport(w: Worker) {
    Poll(w).1.Some? && Poll(w).1.value.presentUs < FAST_PRESENT_THRESHOLD_US
  }

  /**
   When a probe's paint wakes the window. Its own present is no part of it: what it submits is still
   unreported. It wakes on a fast report of an earlier frame, unless the submit time returned with its
   own frame puts it straight back to sleep; and with no such report it wakes exactly if it submits
   while the previous frame's submit time was fast.
  */
  lemma ProbeWakesIff(m: Sleeper, body: Body)
    requires Inv(m) && m.sleep.policy.Sleeping? && m.sleep.probePending
    ensures var r := PaintBoth(m, body);
            var us := Submission(m.worker, body);
            && (r.sleep.policy.Active? <==>
                  if FastReport(m.worker) then us.Some? ==> us.value <= IMMEDIATE_OCCLUDE_THRESHOLD_US
                  else us.Some? && us.value < FAST_PRESENT_THRESHOLD_US)
            && (us.Some? ==> |r.worker.reports| + 1 == r.worker.submitted
                             && us.value == NewestOf(r.worker.reports).submitUs)
  {
    hide SleepInv, WorkerInv, PaintSleep, Asked, Polled;
    ProbePaint(m.sleep, PresentSample(Poll(m.worker).1), InnerOf(m.worker, body));
    if Submission(m.worker, body).Some? {
      SubmissionIs(m.worker, body);
    }
  }

  lemma ProbePaint(s: Sleep, stats: Option<nat>, inner: Inner)
    requires SleepInv(s) && s.policy.Sleeping? && s.probePending
    ensures PaintSleep(s, stats, inner).policy.Active? <==>
              if stats.Some? && stats.value < FAST_PRESENT_THRESHOLD_US
              then inner.Drew? && inner.outcome.Yes? ==> inner.outcome.submitDoneUs <= IMMEDIATE_OCCLUDE_THRESHOLD_US
              else inner.Drew? && inner.outcome.Yes? && inner.outcome.submitDoneUs < FAST_PRESENT_THRESHOLD_US
  {
    hide CountAbove, LastN, HistoryInv, ProbeInv;
  }

  lemma SubmissionIs(w: Worker, body: Body)
    requires WorkerInv(w) && Submission(w, body).Some?
    ensures var a := Answer(Asked(w, body.late), body.surface).0;
            && |a.reports| + 1 == a.submitted
            && Submission(w, body).value == NewestOf(a.reports).submitUs
  {
    AskedKeepsInv(w, body.late);
  }

  /** Paints and waits during which no report, focus or signal arrives. */
  predicate Unheard(e: Event) {
    match e
    case Painted(_, _, body) => body.Frame? ==> body.late == None
    case Other(t) => t.event.AboutToWait?
    case Reported(_) => false
  }

  predicate Hanging(m: Sleeper) {
    Inv(m) && m.worker.inFlight == 1 && m.worker.channel == [] && m.sleep.sleepDeadline == None
  }

  lemma UnheardPaint(m: Sleeper, body: Body)
    requires Hanging(m) && (body.Frame? ==> body.late == None)
    ensures var r := PaintBoth(m, body);
            && Hanging(r) && r.worker == m.worker
            && r.sleep.policy == m.sleep.policy && r.sleep.samples == m.sleep.samples
  {
    PaintBothKeepsInv(m, body);
    SampleFreePaint(m.sleep, InnerOf(m.worker, body));
    PaintKeepsDeadline(m.sleep, InnerOf(m.worker, body));
    hide SleepInv, PaintSleep;
  }

  lemma PaintKeepsDeadline(s: Sleep, inner: Inner)
    ensures PaintSleep(s, None, inner).sleepDeadline == s.sleepDeadline
  {
    hide LooksOccluded, LastN;
  }

  /**
   While a submitted frame's present hangs, paints tell the window nothing: it stays awake if a probe
   woke it blindly, and asleep if it was asleep, until the report arrives, a focus or a signal.
  */
  lemma {:induction false} HangingPresentFreezesBelief(m: Sleeper, events: seq<Event>)
    requires Hanging(m) && forall i :: 0 <= i < |events| ==> Unheard(events[i])
    ensures var r := RunBoth(m, events);
            && Hanging(r) && r.worker == m.worker
            && r.sleep.policy == m.sleep.policy && r.sleep.samples == m.sleep.samples
    decreases |events|
  {
    if events != [] {
      UnheardStep(m, events[0]);
      HangingPresentFreezesBelief(StepBoth(m, events[0]), events[1..]);
    }
  }

  lemma UnheardWait(s: Sleep, dt: nat)
    requires SleepInv(s) && s.sleepDeadline == None
    ensures var r := StepSleep(s, Timed(dt, AboutToWait));
            r.sleepDeadline == None && r.policy == s.policy && r.samples == s.samples
  {
    hide HistoryInv, ProbeInv;
  }

  lemma UnheardStep(m: Sleeper, e: Event)
    requires Hanging(m) && Unheard(e)
    ensures var r := StepBoth(m, e);
            && Hanging(r) && r.worker == m.worker
            && r.sleep.policy == m.sleep.policy && r.sleep.samples == m.sleep.samples
  {
    hide PaintBoth, StepSleep;
    StepBothKeepsInv(m, e);
    if e.Other? {
      UnheardWait(m.sleep, e.timed.dt);
    } else {
      var drifted, redraw := e.resized || m.sleep.drifted, e.resized && m.sleep.redraw;
      FrameKeepsInv(m.sleep, e.dt, drifted, redraw);
      UnheardPaint(
        m.(sleep := m.sleep.(clock := m.sleep.clock + e.dt, drifted := drifted, redraw := redraw)), e.body);
    }
  }

  /**
   A present that took over half a second puts an active window to sleep. If that frame's submit was
   fast, the next probe wakes the window the moment it submits, whatever the compositor then does with
   the probe's own frame, and the window stays awake for as long as that present hangs.
  */
  lemma SlowPresentFastSubmitWakesBlindly(m: Sleeper, slow: Stats, body: Body, events: seq<Event>)
    requires Inv(m) && m.sleep.policy.Active? && !m.sleep.probePending
    requires !m.sleep.drifted && m.sleep.sleepDeadline == None && m.worker.channel == [slow]
    requires slow.presentUs > IMMEDIATE_OCCLUDE_THRESHOLD_US && slow.submitUs < FAST_PRESENT_THRESHOLD_US
    requires forall i :: 0 <= i < |events| ==> Unheard(events[i])
    ensures var a := StepBoth(m, Painted(0, false, body));
            var b := StepBoth(a, Other(Timed(OCCLUSION_PROBE_INTERVAL, AboutToWait)));
            var c := StepBoth(b, Painted(0, false, Frame(None, Acquired, false)));
            && a.sleep.policy.Sleeping? && b.sleep.policy.Sleeping? && b.sleep.probePending
            && c.sleep.policy.Active? && c.worker.inFlight == 1
            && RunBoth(c, events).sleep.policy.Active?
  {
    hide SleepInv, WorkerInv, StepBoth, RunBoth, Poll, Unheard;
    var a := StepBoth(m, Painted(0, false, body));
    var probe := Frame(None, Acquired, false);
    SlowReportSleeps(m, slow, body);
    StepBothKeepsInv(m, Painted(0, false, body));
    ProbeFalls(a);
    var b := StepBoth(a, Other(Timed(OCCLUSION_PROBE_INTERVAL, AboutToWait)));
    BlindProbe(b);
    HangingPresentFreezesBelief(StepBoth(b, Painted(0, false, probe)), events);
  }

  /** A probe armed the full interval ahead is pending once the interval has passed. */
  lemma ProbeFalls(m: Sleeper)
    requires Inv(m) && m.sleep.policy.Sleeping? && m.sleep.sleepDeadline == None
    requires m.sleep.nextProbe == Some(m.sleep.clock + OCCLUSION_PROBE_INTERVAL)
    ensures var r := StepBoth(m, Other(Timed(OCCLUSION_PROBE_INTERVAL, AboutToWait)));
            && Inv(r) && r.worker == m.worker && r.sleep.sleepDeadline == None
            && r.sleep.policy.Sleeping? && r.sleep.probePending && r.sleep.redraw
  {
    StepBothKeepsInv(m, Other(Timed(OCCLUSION_PROBE_INTERVAL, AboutToWait)));
    hide SleepInv, WorkerInv;
  }

  /** With nothing unpresented and no new report, a fast submit time of the last frame is all a probe needs. */
  lemma BlindProbe(m: Sleeper)
    requires Inv(m) && m.sleep.policy.Sleeping? && m.sleep.probePending && m.sleep.sleepDeadline == None
    requires m.worker.inFlight == 0 && m.worker.last.submitUs < FAST_PRESENT_THRESHOLD_US
    ensures var r := StepBoth(m, Painted(0, false, Frame(None, Acquired, false)));
            Hanging(r) && r.sleep.policy.Active?
  {
    var probe := Frame(None, Acquired, false);
    StepBothKeepsInv(m, Painted(0, false, probe));
    FrameKeepsInv(m.sleep, 0, m.sleep.drifted, false);
    ProbeWakesIff(m.(sleep := m.sleep.(redraw := false)), probe);
  }

  lemma SlowReportSleeps(m: Sleeper, slow: Stats, body: Body)
    requires Inv(m) && m.sleep.policy.Active? && !m.sleep.drifted && !m.sleep.probePending
    requires m.worker.channel == [slow] && slow.presentUs > IMMEDIATE_OCCLUDE_THRESHOLD_US
    ensures var a := StepBoth(m, Painted(0, false, body));
            && a.sleep.policy.Sleeping? && a.sleep.nextProbe == Some(a.sleep.clock + OCCLUSION_PROBE_INTERVAL)
            && a.sleep.sleepDeadline == m.sleep.sleepDeadline && !a.sleep.drifted
            && a.worker.inFlight == 0 && a.worker.last == slow
  {
  }

  // ---- recovery ---------------------------------------------------------------------------------

  /** Asleep, or awake with too short a history for two more samples to put it to sleep. */
  predicate NearlyAwake(s: Sleep) {
    s.sleepDeadline == None && (s.policy.Active? ==> |s.history| <= 1 && s.redraw)
  }

  lemma FewSamplesStayAwake(s: Sleep, us: nat)
    requires s.policy.Active? && !s.occluded && us <= IMMEDIATE_OCCLUDE_THRESHOLD_US
    requires |s.history| <= 2
    requires |s.history| == 2 ==> s.history[1] <= SLOW_PRESENT_THRESHOLD_US
    ensures var r := Observe(s, us); r.policy.Active? && r.history == s.history + [us]
  {
    var h := s.history + [us];
    assert CountAbove(h[1..], SLOW_PRESENT_THRESHOLD_US) <= 1;
  }

  /** The probe's frame is on its way, and whatever its paint learned, the interval brings the next paint. */
  lemma ProbeSubmits(m: Sleeper)
    requires Inv(m) && m.sleep.policy.Sleeping? && m.sleep.probePending && m.sleep.sleepDeadline == None
    requires |m.worker.reports| == m.worker.submitted
    ensures var r := StepBoth(m, Painted(0, false, Frame(None, Acquired, false)));
            && Inv(r) && NearlyAwake(r.sleep) && r.worker.channel == [] && r.worker.reports == m.worker.reports
            && r.worker.submitted == m.worker.submitted + 1
            && (r.sleep.policy.Sleeping? ==>
                  r.sleep.nextProbe == Some(r.sleep.clock + OCCLUSION_PROBE_INTERVAL))
  {
    hide SleepInv, PaintSleep, Polled, WorkerInv, NearlyAwake;
    StepBothKeepsInv(m, Painted(0, false, Frame(None, Acquired, false)));
    NothingUnpresented(m.worker);
    FrameKeepsInv(m.sleep, 0, m.sleep.drifted, false);
    SubmittedProbe(m.sleep.(redraw := false), PresentSample(Poll(m.worker).1), Poll(m.worker).0.last.submitUs);
  }

  lemma NothingUnpresented(w: Worker)
    requires WorkerInv(w) && |w.reports| == w.submitted
    ensures Poll(w).0.inFlight == 0 && Poll(w).0.reports == w.reports && Poll(w).0.submitted == w.submitted
  {
  }

  lemma SubmittedProbe(s: Sleep, stats: Option<nat>, us: nat)
    requires SleepInv(s) && s.policy.Sleeping? && s.probePending && s.sleepDeadline == None
    ensures var r := PaintSleep(s, stats, Drew(Yes(us), false));
            && NearlyAwake(r)
            && (r.policy.Sleeping? ==> r.nextProbe == Some(r.clock + OCCLUSION_PROBE_INTERVAL))
  {
    assert PolicyInv(s, true);
    hide SleepInv, MidPaintInv, HistoryInv, ProbeInv, LooksOccluded;
  }

  lemma IntervalRequestsPaint(m: Sleeper)
    requires Inv(m) && NearlyAwake(m.sleep)
    requires m.sleep.policy.Sleeping? ==> m.sleep.nextProbe == Some(m.sleep.clock + OCCLUSION_PROBE_INTERVAL)
    ensures var r := StepBoth(m, Other(Timed(OCCLUSION_PROBE_INTERVAL, AboutToWait)));
            Inv(r) && NearlyAwake(r.sleep) && r.sleep.redraw && r.worker == m.worker
  {
    StepBothKeepsInv(m, Other(Timed(OCCLUSION_PROBE_INTERVAL, AboutToWait)));
    hide SleepInv, WorkerInv, HistoryInv, ProbeInv;
  }

  /** A paint that polls a fast report ends awake, whatever it goes on to do. */
  lemma FastReportWakes(m: Sleeper, own: Stats, body: Body)
    requires Inv(m) && NearlyAwake(m.sleep) && m.worker.channel == [own]
    requires |m.worker.reports| == m.worker.submitted
    requires own.presentUs < FAST_PRESENT_THRESHOLD_US && own.submitUs <= IMMEDIATE_OCCLUDE_THRESHOLD_US
    ensures StepBoth(m, Painted(0, false, body)).sleep.policy.Active?
  {
    var now := m.sleep.(redraw := false);
    if now.policy.Active? {
      FewSamplesStayAwake(now.(probePending := false), own.presentUs);
    }
    var polled := Polled(now, Some(own.presentUs));
    assert polled.policy.Active? && !polled.occluded && |polled.history| <= 2;
    FewSamplesStayAwake(polled, own.submitUs);
    hide Observe, Polled;
  }

  /**
   A probe that is submitted while nothing else is unpresented: its own fast report wakes the window
   with the first paint that polls it, at the latest the next probe's, whatever else that paint does.
  */
  lemma ProbeRecovers(m: Sleeper, own: Stats, body: Body)
    requires Inv(m) && m.sleep.policy.Sleeping? && m.sleep.probePending && m.sleep.sleepDeadline == None
    requires |m.worker.reports| == m.worker.submitted
    requires own.presentUs < FAST_PRESENT_THRESHOLD_US && own.submitUs <= IMMEDIATE_OCCLUDE_THRESHOLD_US
    ensures var a := StepBoth(m, Painted(0, false, Frame(None, Acquired, false)));
            var b := StepBoth(a, Reported(own));
            var c := StepBoth(b, Other(Timed(OCCLUSION_PROBE_INTERVAL, AboutToWait)));
            var d := StepBoth(c, Painted(0, false, body));
            c.sleep.redraw && d.sleep.policy.Active?
  {
    ProbeSubmits(m);
    var a := StepBoth(m, Painted(0, false, Frame(None, Acquired, false)));
    var b := StepBoth(a, Reported(own));
    StepBothKeepsInv(a, Reported(own));
    IntervalRequestsPaint(b);
    FastReportWakes(StepBoth(b, Other(Timed(OCCLUSION_PROBE_INTERVAL, AboutToWait))), own, body);
    hide SleepInv, WorkerInv, StepSleep, PaintBoth;
  }

  /** A refused probe leaves the worker as it was and another probe on its way. */
  lemma LostProbe(m: Sleeper, lost: Body)
    requires Inv(m) && m.sleep.policy.Sleeping? && m.sleep.cause.Heuristic? && m.sleep.sleepDeadline == None
    requires m.worker.channel == [] && |m.worker.reports| == m.worker.submitted
    requires lost.Frame? ==> !lost.surface.Acquired?
    ensures var a := StepBoth(m, Painted(0, false, lost));
            var r := StepBoth(a, Other(Timed(OCCLUSION_PROBE_INTERVAL, AboutToWait)));
            && Inv(r) && r.worker == m.worker && r.sleep.sleepDeadline == None
            && r.sleep.policy.Sleeping? && r.sleep.probePending && r.sleep.redraw
  {
    var inner := InnerOf(m.worker, lost);
    HeuristicSleepIsProbed(m.sleep, inner);
    PaintKeepsDeadline(m.sleep.(redraw := false), inner);
    hide SleepInv, WorkerInv, PaintSleep;
  }

  /**
   A heuristic sleep ends by itself once the compositor presents again: whatever became of the probe
   already under way, the next one is due within the interval, and the one after it, at the latest,
   polls that probe's fast report and wakes the window.
  */
  lemma HeuristicSleepRecovers(m: Sleeper, lost: Body, own: Stats, body: Body)
    requires Inv(m) && m.sleep.policy.Sleeping? && m.sleep.cause.Heuristic? && m.sleep.sleepDeadline == None
    requires m.worker.channel == [] && |m.worker.reports| == m.worker.submitted
    requires lost.Frame? ==> !lost.surface.Acquired?
    requires own.presentUs < FAST_PRESENT_THRESHOLD_US && own.submitUs <= IMMEDIATE_OCCLUDE_THRESHOLD_US
    ensures var wait := Other(Timed(OCCLUSION_PROBE_INTERVAL, AboutToWait));
            var p := StepBoth(StepBoth(m, Painted(0, false, lost)), wait);
            var submitted := StepBoth(p, Painted(0, false, Frame(None, Acquired, false)));
            var c := StepBoth(StepBoth(submitted, Reported(own)), wait);
            && p.sleep.probePending && p.sleep.redraw && c.sleep.redraw
            && StepBoth(c, Painted(0, false, body)).sleep.policy.Active?
  {
    LostProbe(m, lost);
    hide SleepInv, WorkerInv, StepBoth;
    ProbeRecovers(
      StepBoth(StepBoth(m, Painted(0, false, lost)), Other(Timed(OCCLUSION_PROBE_INTERVAL, AboutToWait))), own, body);
  }
}
