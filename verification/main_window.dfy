/**
 Painting the main window: the freshness-gated swap with the active engine's frame, the four
 paint paths, the two chrome bands, the idle short-circuit and the commit that follows a frame.

 Engines are adversaries that may replace their frame at any time without lowering its
 generation. The window may switch tabs inside an engine or be handed to another engine.

 What the renderer answers is any outcome in a `PaintInput`; the runs wired to the renderer's real
 answers are among them (`WiredRunsAreRuns`).
*/
module MainWindow {
  import opened Options
  import opened Osr
  import opened Gpu
  import opened Occlusion
  import Presents

  // ---- state ------------------------------------------------------------------------------------

  /** What a layer draws into an `lw` by `lh` chrome buffer, cell by cell. */
  type Draw = (nat, nat, nat) -> Pixel

  /** The chrome: its strips, and whether an overlay floats over the page region. */
  datatype Chrome = Chrome(draw: Draw, overlay: bool, notice: bool)

  datatype Page = Page(
    frames: map<nat, Frame>, views: map<nat, (nat, nat)>, active: nat,
    scratch: seq<Byte>, lastGen: nat, dims: Option<(nat, nat)>, stale: bool,
    // every (engine, generation) swapped out so far
    consumed: seq<(nat, nat)>)

  datatype Strips = Strips(
    chrome: Chrome, chromeGen: nat, paintedGen: nat, middleOnGpu: bool, animActive: bool,
    // what the last committed chrome upload painted
    lastChrome: Chrome, lastSplash: Option<Draw>)

  datatype State = State(
    page: Page, strips: Strips, sleep: Sleep, gpu: Gpu, retryAt: Option<nat>)

  /** One paint: its geometry, the loading animation's picture, and what the GPU side answers. */
  datatype PaintInput = PaintInput(
    lw: nat, lh: nat, browserW: nat, browserH: nat, native: bool, splash: Draw,
    stats: Option<nat>, outcome: Outcome, liveDrift: bool)

  datatype Event =
    | Produce(engine: nat, frame: Frame)
    | ViewResized(engine: nat, w: nat, h: nat)
    | TabSwitch
    | KeySwitch
    | EngineSwitch(engine: nat)
    | ChromeChanged(chrome: Chrome)
    | Resized(input: PaintInput)
    | Redraw(input: PaintInput)
    | Signal(signal: Occlusion.Event)
    | AboutToWait

  datatype TimedEvent = TimedEvent(dt: nat, event: Event)

  const TAB_STRIP_HEIGHT: nat := 34
  const DOWNLOAD_NOTICE_HEIGHT: nat := 28
  const STATUSLINE_HEIGHT: nat := 30
  const OSR_DIM_TOLERANCE: nat := 32

  // ---- geometry and the chrome buffer -----------------------------------------------------------

  /** The page region's first row and height in the logical layout (`cef_child_rect_pure` at scale 1). */
  function BrowserRows(lh: nat, notice: bool): (r: (nat, nat)) {
    var statusH := Min(STATUSLINE_HEIGHT, lh);
    var tabH := Min(TAB_STRIP_HEIGHT, lh - statusH);
    var noticeH := if notice then Min(DOWNLOAD_NOTICE_HEIGHT, lh - statusH - tabH) else 0;
    (noticeH + tabH, Max(lh - statusH - tabH - noticeH, 1))
  }

  predicate InBrowser(lw: nat, lh: nat, notice: bool, k: nat) {
    var (y, h) := BrowserRows(lh, notice);
    y * lw <= k < (y + h) * lw
  }

  predicate InStripBands(lw: nat, lh: nat, k: nat) {
    InBands(lw, lh, TAB_STRIP_HEIGHT + DOWNLOAD_NOTICE_HEIGHT, STATUSLINE_HEIGHT, k)
  }

  function ChromeCell(c: Chrome, splash: Option<Draw>, lw: nat, lh: nat, k: nat): Pixel {
    if splash.Some? && InBrowser(lw, lh, c.notice, k) then splash.value(lw, lh, k)
    else if c.overlay || InStripBands(lw, lh, k) then c.draw(lw, lh, k)
    else 0
  }

  /**
   The buffer a paint hands to the worker: zeroed, the strips inside the two bands, an overlay
   anywhere, and the loading animation over the page region.
  */
  function ChromeBuffer(c: Chrome, splash: Option<Draw>, lw: nat, lh: nat): (r: seq<Pixel>)
    ensures |r| == lh * lw
  {
    seq(lh * lw, k requires 0 <= k => ChromeCell(c, splash, lw, lh, k))
  }

  // ---- the shared frame -------------------------------------------------------------------------

  predicate Bounds(s: State) {
    && (s.page.dims.Some? ==>
          && s.page.dims.value.0 > 0 && s.page.dims.value.1 > 0
          && |s.page.scratch| == ByteLen(s.page.dims.value.0, s.page.dims.value.1))
    && GpuValid(s.gpu)
  }

  predicate Fresh(p: Page) {
    && p.active in p.frames && p.active in p.views
    && IsFresh(p.frames[p.active], p.lastGen, p.views[p.active].0, p.views[p.active].1)
  }

  /** The swap. The consumed generation is committed later, after the frame. */
  function Take(p: Page): Page {
    if Fresh(p) then
      var f := p.frames[p.active];
      p.(dims := Some((f.width, f.height)),
         scratch := f.pixels,
         frames := p.frames[p.active := f.(pixels := p.scratch)],
         consumed := p.consumed + [(p.active, f.generation)])
    else p
  }

  function TakenGeneration(p: Page): nat {
    if Fresh(p) then p.frames[p.active].generation else p.lastGen
  }

  /** `on_tab_switch`: everything the active engine has painted so far counts as seen. */
  function SwitchTab(p: Page): Page {
    p.(dims := None, lastGen := if p.active in p.frames then p.frames[p.active].generation else 0)
  }

  /** `osr_resize`: the engine's next frame is expected at this size, and only a frame painted from now on will do. */
  function ResizeView(p: Page, e: nat, w: nat, h: nat): Page {
    p.(views := p.views[e := (w, h)],
       frames := if e in p.frames then p.frames[e := p.frames[e].(needsFresh := true)] else p.frames)
  }

  // ---- paint paths ------------------------------------------------------------------------------

  datatype PaintPath = Animation | FreshOsr | SyntheticScratch | DeadFallback

  function AbsDiff(a: nat, b: nat): nat {
    if a >= b then a - b else b - a
  }

  /** `should_show_loading_anim`. */
  predicate ShouldShowLoadingAnim(dims: Option<(nat, nat)>, browserW: nat, browserH: nat) {
    dims.Some? ==>
      AbsDiff(dims.value.0, browserW) > OSR_DIM_TOLERANCE || AbsDiff(dims.value.1, browserH) > OSR_DIM_TOLERANCE
  }

  predicate WantAnim(dims: Option<(nat, nat)>, drifted: bool, i: PaintInput) {
    (ShouldShowLoadingAnim(dims, i.browserW, i.browserH) || drifted) && !i.native
  }

  /** `decide_paint_path`. */
  function DecidePaintPath(wantAnim: bool, hasMeta: bool, dims: Option<(nat, nat)>): PaintPath {
    if wantAnim then Animation
    else if hasMeta then FreshOsr
    else if dims.Some? then SyntheticScratch
    else DeadFallback
  }

  /** The idle short-circuit: nothing to upload as far as the generations and the animation can tell. */
  predicate ShortCircuits(t: Strips, took: bool, wantAnim: bool) {
    t.chromeGen == t.paintedGen && !took && !wantAnim && !t.animActive
  }

  /** What is uploaded for the page, for a page whose swap is done. */
  function PageUpload(p: Page, path: PaintPath, gen: nat): Option<OsrUpload> {
    if (path.FreshOsr? || path.SyntheticScratch?) && p.dims.Some?
    then Some(OsrUpload(p.scratch, p.dims.value.0, p.dims.value.1, gen,
                        path.SyntheticScratch? && !p.stale))
    else None
  }

  predicate ChromeDirtyEffective(t: Strips, wantAnim: bool) {
    t.chromeGen != t.paintedGen || wantAnim || (t.animActive && !wantAnim)
  }

  /** Whether this frame's chrome buffer reaches into the page region. */
  predicate MiddlePainted(t: Strips, wantAnim: bool) {
    wantAnim || (ChromeDirtyEffective(t, wantAnim) && t.chrome.overlay)
  }

  function SplashOf(wantAnim: bool, i: PaintInput): Option<Draw> {
    if wantAnim then Some(i.splash) else None
  }

  /** The chrome half of a command. `wide` is the reference that always uploads every row. */
  function ChromeCommand(t: Strips, wantAnim: bool, wide: bool, i: PaintInput, osr: Option<OsrUpload>): Command {
    var full := wide || MiddlePainted(t, wantAnim) || t.middleOnGpu;
    Command(i.lw, i.lh,
            if full then i.lh else TAB_STRIP_HEIGHT + DOWNLOAD_NOTICE_HEIGHT,
            if full then 0 else STATUSLINE_HEIGHT,
            if ChromeDirtyEffective(t, wantAnim)
            then Some(ChromeBuffer(t.chrome, SplashOf(wantAnim, i), i.lw, i.lh)) else None,
            osr)
  }

  function CommitStrips(t: Strips, wantAnim: bool, i: PaintInput): Strips {
    var u := t.(animActive := wantAnim);
    if DecideFrameCommit(i.outcome, ChromeDirtyEffective(t, wantAnim)).advanceChromeGen
    then u.(paintedGen := t.chromeGen, middleOnGpu := MiddlePainted(t, wantAnim),
            lastChrome := t.chrome, lastSplash := SplashOf(wantAnim, i))
    else u
  }

  function CommitPage(p: Page, path: PaintPath, gen: nat, o: Outcome): Page {
    p.(lastGen := gen,
       stale := if path.FreshOsr? || path.SyntheticScratch? then !o.Yes? else p.stale)
  }

  // ---- one paint --------------------------------------------------------------------------------

  /** The part of a paint that draws: `s` holds the page after the swap, `gen` what it consumed. */
  function DrawFrame(s: State, took: bool, gen: nat, wantAnim: bool, wide: bool, i: PaintInput): (r: State)
    requires Bounds(s) && (took ==> s.page.dims.Some?)
    ensures Bounds(r)
  {
    var path := DecidePaintPath(wantAnim, took, s.page.dims);
    var command := ChromeCommand(s.strips, wantAnim, wide, i, PageUpload(s.page, path, gen));
    State(
      CommitPage(s.page, path, gen, i.outcome),
      CommitStrips(s.strips, wantAnim, i),
      s.sleep,
      if i.outcome.Yes? then Execute(s.gpu, command) else s.gpu,
      if i.outcome.No? then Some(s.sleep.clock + SKIPPED_FRAME_RETRY_DELAY) else None)
  }

  /** `paint_chrome_inner`, past the sleep guard: either nothing at all, or a frame. */
  function PaintBody(s: State, wide: bool, i: PaintInput): (r: (State, Inner))
    requires Bounds(s)
    ensures Bounds(r.0)
  {
    var took := Fresh(s.page);
    var page := Take(s.page);
    var wantAnim := WantAnim(page.dims, s.sleep.drifted, i);
    if ShortCircuits(s.strips, took, wantAnim) then (s, Idle)
    else
      (DrawFrame(s.(page := page), took, TakenGeneration(s.page), wantAnim, wide, i),
       Drew(i.outcome, i.liveDrift))
  }

  /** `paint_chrome_with`. */
  function Paint(s: State, wide: bool, i: PaintInput): (r: State)
    requires Bounds(s)
    ensures Bounds(r)
  {
    if Admitted(Polled(s.sleep, i.stats), s.sleep.probePending) then
      var (t, inner) := PaintBody(s, wide, i);
      t.(sleep := PaintSleep(s.sleep, i.stats, inner))
    else
      s.(sleep := PaintSleep(s.sleep, i.stats, Idle))
  }

  // ---- events -----------------------------------------------------------------------------------

  function MarkChromeDirty(t: Strips, chrome: Chrome): Strips {
    t.(chrome := chrome, chromeGen := t.chromeGen + 1)
  }

  /** The retry section of `about_to_wait`. */
  function RetryTick(s: State): State {
    if s.retryAt.Some? && s.sleep.clock >= s.retryAt.value
    then s.(retryAt := None, sleep := s.sleep.(redraw := true))
    else s
  }

  function Step(s: State, wide: bool, t: TimedEvent): (r: State)
    requires Bounds(s)
    ensures Bounds(r)
  {
    var now := s.(sleep := s.sleep.(clock := s.sleep.clock + t.dt));
    match t.event
    case Produce(e, f) =>
      if e in s.page.frames && f.generation >= s.page.frames[e].generation
      then now.(page := s.page.(frames := s.page.frames[e := f]))
      else now
    case ViewResized(e, w, h) => now.(page := ResizeView(s.page, e, w, h))
    case TabSwitch => now.(page := SwitchTab(s.page))
    // next, previous and close by keyboard: the engine changes tabs, the window is not told
    case KeySwitch => now
    case EngineSwitch(e) => now.(page := s.page.(active := e))
    case ChromeChanged(c) =>
      now.(strips := MarkChromeDirty(s.strips, c), sleep := now.sleep.(redraw := true))
    case Resized(i) =>
      Paint(now.(strips := MarkChromeDirty(s.strips, s.strips.chrome),
                 sleep := now.sleep.(drifted := true)), wide, i)
    case Redraw(i) => Paint(now.(sleep := now.sleep.(redraw := false)), wide, i)
    case Signal(e) =>
      if e.Focused? || e.OccludedSignal? then s.(sleep := StepSleep(s.sleep, Timed(t.dt, e))) else now
    case AboutToWait => RetryTick(s.(sleep := StepSleep(s.sleep, Timed(t.dt, Occlusion.AboutToWait))))
  }

  function Run(s: State, wide: bool, events: seq<TimedEvent>): (r: State)
    requires Bounds(s)
    ensures Bounds(r)
    decreases |events|
  {
    if events == [] then s else Run(Step(s, wide, events[0]), wide, events[1..])
  }

  /** The window as it starts: nothing consumed, nothing uploaded, its first chrome owed. */
  predicate Initial(s: State) {
    && s.page.scratch == [] && s.page.lastGen == 0 && s.page.dims == None && !s.page.stale
    && s.page.consumed == []
    && s.strips.chromeGen == 1 && s.strips.paintedGen == 0
    && !s.strips.middleOnGpu && !s.strips.animActive
    && s.sleep == Awake() && s.retryAt == None
    && s.gpu.osr == Unallocated && GpuValid(s.gpu)
    && s.gpu.chrome == Blank(s.gpu.chromeLw, s.gpu.chromeLh)
  }

  // ---- the chrome texture -----------------------------------------------------------------------

  /** Between the bands the texture is transparent unless `chrome_middle_on_gpu` says otherwise. */
  predicate MiddleInv(t: Strips, g: Gpu) {
    && GpuValid(g)
    && (!t.middleOnGpu ==>
          forall k :: 0 <= k < |g.chrome| ==> (!InStripBands(g.chromeLw, g.chromeLh, k) ==> g.chrome[k] == 0))
  }

  /** The texture is a whole painting of the chrome it was last given, or new and still transparent. */
  ghost predicate PaintingInv(t: Strips, g: Gpu) {
    && (g.chrome == ChromeBuffer(t.lastChrome, t.lastSplash, g.chromeLw, g.chromeLh)
        || g.chrome == Blank(g.chromeLw, g.chromeLh))
    && t.paintedGen <= t.chromeGen
    && (t.paintedGen == t.chromeGen ==> t.lastChrome == t.chrome)
  }

  ghost predicate ChromeInv(s: State) {
    MiddleInv(s.strips, s.gpu) && PaintingInv(s.strips, s.gpu)
  }

  /** Outside the two bands a buffer with nothing over the page region is transparent. */
  lemma UnpaintedMiddleIsTransparent(c: Chrome, lw: nat, lh: nat, k: nat)
    requires !c.overlay && k < lh * lw && !InStripBands(lw, lh, k)
    ensures ChromeBuffer(c, None, lw, lh)[k] == 0
  {
  }

  /** Whatever the bands of this frame, its dirty chrome arrives whole. */
  lemma ChromeUploadIsFull(t: Strips, g: Gpu, wantAnim: bool, wide: bool, i: PaintInput, osr: Option<OsrUpload>)
    requires MiddleInv(t, g) && ChromeDirtyEffective(t, wantAnim) && (osr.Some? ==> InBounds(osr.value))
    ensures var c := ChromeCommand(t, wantAnim, wide, i, osr);
            && CommandValid(c)
            && Execute(g, c).chrome == ChromeBuffer(t.chrome, SplashOf(wantAnim, i), i.lw, i.lh)
  {
    var c := ChromeCommand(t, wantAnim, wide, i, osr);
    var tex, buf := SizedChrome(g, i.lw, i.lh), c.chromePixels.value;
    WriteChromeCells(tex, buf, i.lw, i.lh, c.topBand, c.bottomBand);
    if c.bottomBand == 0 {
      FullBandIsFullUpload(tex, buf, i.lw, i.lh);
    } else {
      forall k | 0 <= k < |buf| && !InStripBands(i.lw, i.lh, k)
        ensures tex[k] == 0 && buf[k] == 0
      {
        UnpaintedMiddleIsTransparent(t.chrome, i.lw, i.lh, k);
      }
    }
  }

  /** A frame's chrome half, submitted or not, dirty or not. */
  lemma DrawnChrome(s: State, took: bool, gen: nat, wantAnim: bool, wide: bool, i: PaintInput)
    requires Bounds(s) && (took ==> s.page.dims.Some?) && ChromeInv(s)
    ensures var r := DrawFrame(s, took, gen, wantAnim, wide, i);
            && ChromeInv(r)
            && (i.outcome.Yes? && ChromeDirtyEffective(s.strips, wantAnim) ==>
                  r.gpu.chrome == ChromeBuffer(s.strips.chrome, SplashOf(wantAnim, i), i.lw, i.lh))
            && (i.outcome.Yes? && !ChromeDirtyEffective(s.strips, wantAnim) ==>
                  r.gpu.chrome == SizedChrome(s.gpu, i.lw, i.lh))
            && (i.outcome.Yes? ==> r.gpu.chromeLw == i.lw && r.gpu.chromeLh == i.lh)
            && (!i.outcome.Yes? ==> r.gpu == s.gpu)
  {
    var t, r := s.strips, DrawFrame(s, took, gen, wantAnim, wide, i);
    if i.outcome.Yes? {
      var upload := PageUpload(s.page, DecidePaintPath(wantAnim, took, s.page.dims), gen);
      if ChromeDirtyEffective(t, wantAnim) {
        ChromeUploadIsFull(t, s.gpu, wantAnim, wide, i, upload);
        DirtyMiddle(t, wantAnim, i);
      } else {
        assert r.gpu.chrome == SizedChrome(s.gpu, i.lw, i.lh);
      }
    }
  }

  lemma DirtyMiddle(t: Strips, wantAnim: bool, i: PaintInput)
    requires ChromeDirtyEffective(t, wantAnim)
    ensures var buf := ChromeBuffer(t.chrome, SplashOf(wantAnim, i), i.lw, i.lh);
            !MiddlePainted(t, wantAnim) ==>
              forall k :: 0 <= k < |buf| ==> (!InStripBands(i.lw, i.lh, k) ==> buf[k] == 0)
  {
  }

  /** Band uploads and full uploads are the same frame. */
  lemma WideDrawIsDraw(s: State, took: bool, gen: nat, wantAnim: bool, i: PaintInput)
    requires Bounds(s) && (took ==> s.page.dims.Some?) && ChromeInv(s)
    ensures DrawFrame(s, took, gen, wantAnim, true, i) == DrawFrame(s, took, gen, wantAnim, false, i)
  {
    DrawnChrome(s, took, gen, wantAnim, true, i);
    DrawnChrome(s, took, gen, wantAnim, false, i);
  }

  lemma PaintKeepsChrome(s: State, wide: bool, i: PaintInput)
    requires Bounds(s) && ChromeInv(s)
    ensures ChromeInv(Paint(s, wide, i)) && Paint(s, true, i) == Paint(s, false, i)
  {
    hide ChromeInv, DrawFrame, PaintSleep;
    var taken := s.(page := Take(s.page));
    assert ChromeInv(taken) by { SameChrome(s, taken); }
    var wantAnim := WantAnim(Take(s.page).dims, s.sleep.drifted, i);
    var took, gen := Fresh(s.page), TakenGeneration(s.page);
    DrawnChrome(taken, took, gen, wantAnim, wide, i);
    WideDrawIsDraw(taken, took, gen, wantAnim, i);
    SameChrome(PaintBody(s, wide, i).0, Paint(s, wide, i));
    SameChrome(s, Paint(s, wide, i));
  }

  lemma SameChrome(s: State, t: State)
    ensures s.strips == t.strips && s.gpu == t.gpu ==> ChromeInv(s) == ChromeInv(t)
  {
  }

  lemma StepKeepsChrome(s: State, wide: bool, t: TimedEvent)
    requires Bounds(s) && ChromeInv(s)
    ensures ChromeInv(Step(s, wide, t)) && Step(s, true, t) == Step(s, false, t)
  {
    hide Paint, ChromeInv, StepSleep, RetryTick;
    var now := s.(sleep := s.sleep.(clock := s.sleep.clock + t.dt));
    match t.event
    case ChromeChanged(c) => MarkedChrome(s, Step(s, wide, t), c);
    case Resized(i) =>
      var u := now.(strips := MarkChromeDirty(s.strips, s.strips.chrome), sleep := now.sleep.(drifted := true));
      MarkedChrome(s, u, s.strips.chrome);
      PaintKeepsChrome(u, wide, i);
    case Redraw(i) =>
      var u := now.(sleep := now.sleep.(redraw := false));
      SameChrome(s, u);
      PaintKeepsChrome(u, wide, i);
    case AboutToWait =>
      var u := s.(sleep := StepSleep(s.sleep, Timed(t.dt, Occlusion.AboutToWait)));
      RetryTouchesNothing(u);
      SameChrome(s, Step(s, wide, t));
    case _ => SameChrome(s, Step(s, wide, t));
  }

  lemma MarkedChrome(s: State, t: State, c: Chrome)
    requires ChromeInv(s) && t.strips == MarkChromeDirty(s.strips, c) && t.gpu == s.gpu
    ensures ChromeInv(t)
  {
  }

  lemma RetryTouchesNothing(s: State)
    ensures var r := RetryTick(s); r.strips == s.strips && r.gpu == s.gpu && r.page == s.page
  {
  }

  /**
   No ghost pixels: over any run of overlays, animation, resizes, engine and tab switches and
   submitted, skipped or failed frames, uploading only the two bands leaves the very textures
   that uploading every row would.
  */
  lemma {:induction false} BandUploadsRefineFullUploads(s: State, events: seq<TimedEvent>)
    requires Bounds(s) && ChromeInv(s)
    ensures Run(s, false, events) == Run(s, true, events) && ChromeInv(Run(s, false, events))
    decreases |events|
  {
    if events != [] {
      StepKeepsChrome(s, false, events[0]);
      BandUploadsRefineFullUploads(Step(s, false, events[0]), events[1..]);
    }
  }

  // ---- no lost chrome update --------------------------------------------------------------------

  /** The texture is a whole painting of the current chrome. */
  ghost predicate ChromeUpToDate(s: State) {
    s.gpu.chrome == ChromeBuffer(s.strips.chrome, s.strips.lastSplash, s.gpu.chromeLw, s.gpu.chromeLh)
  }

  /** Whether a paint gets as far as the renderer. */
  predicate Draws(s: State, i: PaintInput) {
    && Admitted(Polled(s.sleep, i.stats), s.sleep.probePending)
    && !ShortCircuits(s.strips, Fresh(s.page), WantAnim(Take(s.page).dims, s.sleep.drifted, i))
  }

  /** A pending chrome change is retired exactly by a submitted frame, which shows it; otherwise it stays pending. */
  lemma PendingChromeIsNeverLost(s: State, i: PaintInput)
    requires Bounds(s) && ChromeInv(s) && s.strips.chromeGen != s.strips.paintedGen
    ensures var r := Paint(s, false, i);
            && r.strips.chromeGen == s.strips.chromeGen && r.strips.chrome == s.strips.chrome
            && (r.strips.paintedGen == r.strips.chromeGen <==> Draws(s, i) && i.outcome.Yes?)
            && (Draws(s, i) && i.outcome.Yes? ==> ChromeUpToDate(r))
            && (Draws(s, i) && i.outcome.No? ==> r.retryAt.Some?)
            && (!(Draws(s, i) && i.outcome.Yes?) ==> r.gpu == s.gpu && r.strips.paintedGen == s.strips.paintedGen)
  {
    hide PaintSleep, Polled;
    var taken := s.(page := Take(s.page));
    SameChrome(s, taken);
    var wantAnim := WantAnim(Take(s.page).dims, s.sleep.drifted, i);
    DrawnChrome(taken, Fresh(s.page), TakenGeneration(s.page), wantAnim, false, i);
  }

  /** A submitted frame of a dirty chrome, and a cell of it. */
  ghost predicate ShowsCell(s: State, i: PaintInput, k: nat) {
    && ChromeInv(s) && Draws(s, i) && i.outcome.Yes? && k < i.lh * i.lw
    && ChromeDirtyEffective(s.strips, WantAnim(Take(s.page).dims, s.sleep.drifted, i))
  }

  lemma SubmittedCell(s: State, i: PaintInput, k: nat)
    requires Bounds(s) && ShowsCell(s, i, k)
    ensures var r := Paint(s, false, i);
            var wantAnim := WantAnim(Take(s.page).dims, s.sleep.drifted, i);
            && r.gpu.chromeLw == i.lw && r.gpu.chromeLh == i.lh && |r.gpu.chrome| == i.lh * i.lw && k < |r.gpu.chrome|
            && r.gpu.chrome[k] == ChromeCell(s.strips.chrome, SplashOf(wantAnim, i), i.lw, i.lh, k)
  {
    hide PaintSleep, Polled;
    var taken := s.(page := Take(s.page));
    SameChrome(s, taken);
    var wantAnim := WantAnim(Take(s.page).dims, s.sleep.drifted, i);
    DrawnChrome(taken, Fresh(s.page), TakenGeneration(s.page), wantAnim, false, i);
  }

  /** An open overlay is on the screen, over the page and anywhere else, as soon as its frame is submitted. */
  lemma OverlayIsShown(s: State, i: PaintInput, k: nat)
    requires Bounds(s) && ShowsCell(s, i, k) && s.strips.chrome.overlay
    requires !WantAnim(Take(s.page).dims, s.sleep.drifted, i)
    ensures var r := Paint(s, false, i);
            && |r.gpu.chrome| == i.lh * i.lw && k < |r.gpu.chrome|
            && r.gpu.chrome[k] == s.strips.chrome.draw(i.lw, i.lh, k)
  {
    SubmittedCell(s, i, k);
    hide Paint, WantAnim;
  }

  /**
   Without one, and without the animation, the strips are shown in the first 62 and the last 30 rows,
   and everything between is transparent, so that the page shows through.
  */
  lemma PageShowsThrough(s: State, i: PaintInput, row: nat, col: nat, k: nat)
    requires row < i.lh && col < i.lw && k == row * i.lw + col
    requires Bounds(s) && ShowsCell(s, i, k) && !s.strips.chrome.overlay
    requires !WantAnim(Take(s.page).dims, s.sleep.drifted, i)
    ensures var r := Paint(s, false, i);
            && |r.gpu.chrome| == i.lh * i.lw && k < |r.gpu.chrome|
            && r.gpu.chrome[k] == if row < 62 || row + 30 >= i.lh then s.strips.chrome.draw(i.lw, i.lh, k) else 0
  {
    hide Paint, WantAnim, ShowsCell, InStripBands, InBrowser, Take, Fresh, Bounds, ChromeBuffer;
    SubmittedCell(s, i, k);
    StripRows(i.lw, i.lh, row, col);
  }

  lemma StripRows(lw: nat, lh: nat, row: nat, col: nat)
    requires row < lh && col < lw
    ensures InStripBands(lw, lh, row * lw + col) <==> row < 62 || row + 30 >= lh
  {
    var topH := Min(TAB_STRIP_HEIGHT + DOWNLOAD_NOTICE_HEIGHT, lh);
    RowOrder(lw, row, col, topH);
    RowOrder(lw, row, col, lh - Min(STATUSLINE_HEIGHT, lh - topH));
  }

  lemma RowOrder(lw: nat, row: nat, col: nat, line: nat)
    requires col < lw
    ensures row * lw + col < line * lw <==> row < line
  {
    if row < line {
      RowsInside(lw, row + 1, line);
    } else {
      RowsInside(lw, line, row);
    }
  }

  /**
   While the animation is wanted, its picture covers exactly the rows of the page, overlay or not: those
   between the tab strip, with the download notice if there is one, and the status line, and in a window
   too short for them one row.
  */
  lemma SplashCoversPage(s: State, i: PaintInput, row: nat, col: nat, k: nat)
    requires row < i.lh && col < i.lw && k == row * i.lw + col
    requires Bounds(s) && ShowsCell(s, i, k) && WantAnim(Take(s.page).dims, s.sleep.drifted, i)
    ensures var r, c := Paint(s, false, i), s.strips.chrome;
            var bottom := i.lh - Min(30, i.lh);
            var top := Min(if c.notice then 62 else 34, bottom);
            && |r.gpu.chrome| == i.lh * i.lw && k < |r.gpu.chrome|
            && r.gpu.chrome[k] == if top <= row < Max(bottom, top + 1) then i.splash(i.lw, i.lh, k)
                                  else c.draw(i.lw, i.lh, k)
  {
    hide Paint, WantAnim, ShowsCell, InStripBands, InBrowser, Take, Fresh, Bounds, ChromeBuffer;
    SubmittedCell(s, i, k);
    StripRows(i.lw, i.lh, row, col);
    PageRows(i.lw, i.lh, s.strips.chrome.notice, row, col);
  }

  lemma PageRows(lw: nat, lh: nat, notice: bool, row: nat, col: nat)
    requires row < lh && col < lw
    ensures var bottom := lh - Min(30, lh);
            var top := Min(if notice then 62 else 34, bottom);
            InBrowser(lw, lh, notice, row * lw + col) <==> top <= row < Max(bottom, top + 1)
  {
    var (y, h) := BrowserRows(lh, notice);
    RowOrder(lw, row, col, y);
    RowOrder(lw, row, col, y + h);
  }

  /**
   Chrome that is up to date stays so, except across a frame submitted at another logical size
   with nothing marked dirty and no animation: the worker starts a transparent texture.
  */
  lemma CleanChromeStaysUpToDateIff(s: State, i: PaintInput)
    requires Bounds(s) && ChromeInv(s) && ChromeUpToDate(s) && s.strips.chromeGen == s.strips.paintedGen
    ensures var r := Paint(s, false, i);
            var wantAnim := WantAnim(Take(s.page).dims, s.sleep.drifted, i);
            var grown := Draws(s, i) && i.outcome.Yes? && !ChromeDirtyEffective(s.strips, wantAnim)
                         && (i.lw != s.gpu.chromeLw || i.lh != s.gpu.chromeLh);
            && r.strips.chromeGen == r.strips.paintedGen
            && (ChromeUpToDate(r) <==>
                  !(grown && ChromeBuffer(s.strips.chrome, s.strips.lastSplash, i.lw, i.lh) != Blank(i.lw, i.lh)))
  {
    hide PaintSleep, Polled;
    var taken := s.(page := Take(s.page));
    SameChrome(s, taken);
    var wantAnim := WantAnim(Take(s.page).dims, s.sleep.drifted, i);
    DrawnChrome(taken, Fresh(s.page), TakenGeneration(s.page), wantAnim, false, i);
  }

  /**
   When the loading animation leaves the chrome texture, once the window no longer wants it: with the
   first submitted frame that repaints the chrome, because it is dirty or because the animation was
   on until this frame. Any other frame leaves its last picture up.
  */
  lemma SplashLeavesIff(s: State, i: PaintInput)
    requires Bounds(s) && ChromeInv(s) && s.strips.lastSplash.Some?
    requires !WantAnim(Take(s.page).dims, s.sleep.drifted, i)
    ensures var r := Paint(s, false, i);
            var leaves := Draws(s, i) && i.outcome.Yes?
                          && (s.strips.chromeGen != s.strips.paintedGen || s.strips.animActive);
            && (r.strips.lastSplash == None <==> leaves)
            && (leaves ==> r.gpu.chrome == ChromeBuffer(s.strips.chrome, None, i.lw, i.lh))
            && (!leaves && i.lw == s.gpu.chromeLw && i.lh == s.gpu.chromeLh ==>
                  r.gpu.chrome == s.gpu.chrome && r.strips.lastSplash == s.strips.lastSplash)
  {
    hide PaintSleep, Polled;
    var taken := s.(page := Take(s.page));
    SameChrome(s, taken);
    DrawnChrome(taken, Fresh(s.page), TakenGeneration(s.page), false, false, i);
  }

  /** The chrome is clean and the animation is off, so no frame repaints the chrome. */
  predicate ChromeAtRest(t: Strips) {
    t.chromeGen == t.paintedGen && !t.animActive
  }

  /** An event that leaves a clean chrome clean, and a paint at this size that does not want the animation. */
  predicate RestingStep(s: State, t: TimedEvent, lw: nat, lh: nat) {
    match t.event
    case Redraw(i) => i.lw == lw && i.lh == lh && !WantAnim(Take(s.page).dims, s.sleep.drifted, i)
    case Resized(_) => false
    case ChromeChanged(_) => false
    case _ => true
  }

  predicate RestingRun(s: State, events: seq<TimedEvent>, lw: nat, lh: nat)
    requires Bounds(s)
    decreases |events|
  {
    events == [] || (RestingStep(s, events[0], lw, lh) && RestingRun(Step(s, false, events[0]), events[1..], lw, lh))
  }

  lemma RestingPaint(s: State, i: PaintInput)
    requires Bounds(s) && ChromeInv(s) && ChromeAtRest(s.strips)
    requires i.lw == s.gpu.chromeLw && i.lh == s.gpu.chromeLh
    requires !WantAnim(Take(s.page).dims, s.sleep.drifted, i)
    ensures var r := Paint(s, false, i);
            && ChromeAtRest(r.strips) && r.strips.lastSplash == s.strips.lastSplash
            && r.gpu.chrome == s.gpu.chrome && r.gpu.chromeLw == s.gpu.chromeLw && r.gpu.chromeLh == s.gpu.chromeLh
  {
    hide PaintSleep, Polled, WantAnim, ChromeInv;
  }

  lemma RestingStepKeepsPicture(s: State, t: TimedEvent)
    requires Bounds(s) && ChromeInv(s) && ChromeAtRest(s.strips)
    requires RestingStep(s, t, s.gpu.chromeLw, s.gpu.chromeLh)
    ensures var r := Step(s, false, t);
            && ChromeAtRest(r.strips) && r.strips.lastSplash == s.strips.lastSplash
            && r.gpu.chrome == s.gpu.chrome && r.gpu.chromeLw == s.gpu.chromeLw && r.gpu.chromeLh == s.gpu.chromeLh
  {
    hide Paint, ChromeInv, StepSleep;
    match t.event
    case Redraw(i) =>
      var u := s.(sleep := s.sleep.(clock := s.sleep.clock + t.dt, redraw := false));
      SameChrome(s, u);
      RestingPaint(u, i);
    case AboutToWait => RetryTouchesNothing(s.(sleep := StepSleep(s.sleep, Timed(t.dt, Occlusion.AboutToWait))));
    case _ =>
  }

  /** With the chrome at rest, no number of page frames changes what the chrome texture shows. */
  lemma {:induction false} ChromeStaysAtRest(s: State, events: seq<TimedEvent>)
    requires Bounds(s) && ChromeInv(s) && ChromeAtRest(s.strips)
    requires RestingRun(s, events, s.gpu.chromeLw, s.gpu.chromeLh)
    ensures var r := Run(s, false, events);
            r.gpu.chrome == s.gpu.chrome && r.strips.lastSplash == s.strips.lastSplash
    decreases |events|
  {
    if events != [] {
      RestingStepKeepsPicture(s, events[0]);
      StepKeepsChrome(s, false, events[0]);
      ChromeStaysAtRest(Step(s, false, events[0]), events[1..]);
    }
  }

  /**
   The frame that should have ended the animation is skipped: the animation already counts as off, so
   its last picture stays over the page through any number of frames, submitted ones included, until
   the chrome is marked dirty or the animation comes back.
  */
  lemma SkippedEndKeepsSplash(s: State, i: PaintInput, events: seq<TimedEvent>)
    requires Bounds(s) && ChromeInv(s) && s.strips.chromeGen == s.strips.paintedGen
    requires Draws(s, i) && !WantAnim(Take(s.page).dims, s.sleep.drifted, i) && !i.outcome.Yes?
    requires RestingRun(Paint(s, false, i), events, s.gpu.chromeLw, s.gpu.chromeLh)
    ensures var r := Run(Paint(s, false, i), false, events);
            r.gpu.chrome == s.gpu.chrome && r.strips.lastSplash == s.strips.lastSplash
  {
    PaintKeepsChrome(s, false, i);
    UnsubmittedRests(s, i);
    ChromeStaysAtRest(Paint(s, false, i), events);
  }

  lemma UnsubmittedRests(s: State, i: PaintInput)
    requires Bounds(s) && s.strips.chromeGen == s.strips.paintedGen
    requires Draws(s, i) && !WantAnim(Take(s.page).dims, s.sleep.drifted, i) && !i.outcome.Yes?
    ensures var r := Paint(s, false, i);
            ChromeAtRest(r.strips) && r.gpu == s.gpu && r.strips.lastSplash == s.strips.lastSplash
  {
    hide PaintSleep, Polled, WantAnim;
  }

  /** A changed chrome asks for the redraw that shows it, and that one, submitted, leaves it whole on the texture. */
  lemma ChangedChromeIsShown(s: State, dt: nat, c: Chrome, i: PaintInput)
    requires Bounds(s) && ChromeInv(s)
    ensures var a := Step(s, false, TimedEvent(dt, ChromeChanged(c)));
            var r := Paint(a, false, i);
            && a.sleep.redraw && a.strips.chrome == c && a.strips.chromeGen != a.strips.paintedGen
            && (Draws(a, i) && i.outcome.Yes? ==> ChromeUpToDate(r) && r.strips.chrome == c)
            && (!(Draws(a, i) && i.outcome.Yes?) ==> r.strips.chromeGen != r.strips.paintedGen)
  {
    var a := Step(s, false, TimedEvent(dt, ChromeChanged(c)));
    MarkedChrome(s, a, c);
    PendingChromeIsNeverLost(a, i);
    hide Paint, Draws, ChromeInv, ChromeUpToDate;
  }

  /**
   A resize repaints the chrome at its new size with the very frame that reallocates the texture, asleep
   or not; if that frame is not submitted the chrome stays owed.
  */
  lemma ResizeRepaintsChrome(s: State, dt: nat, i: PaintInput)
    requires Bounds(s) && ChromeInv(s)
    ensures var r := Step(s, false, TimedEvent(dt, Event.Resized(i)));
            && r.strips.chrome == s.strips.chrome
            && (if i.outcome.Yes? then
                  && r.gpu.chromeLw == i.lw && r.gpu.chromeLh == i.lh && ChromeUpToDate(r)
                  && r.strips.paintedGen == r.strips.chromeGen
                else r.strips.paintedGen != r.strips.chromeGen && r.gpu == s.gpu)
            && (!i.native ==> r.strips.animActive)
  {
    var t := TimedEvent(dt, Event.Resized(i));
    PaintOfIsStep(s, false, t);
    var (u, j) := PaintOf(s, t).value;
    MarkedChrome(s, u, s.strips.chrome);
    PollKeepsDrift(u.sleep, i.stats);
    assert Draws(u, i);
    PendingChromeIsNeverLost(u, i);
    DrawnFlags(u, i);
    hide Paint, ChromeInv, ChromeUpToDate, Draws, Step;
  }

  lemma DrawnFlags(s: State, i: PaintInput)
    requires Bounds(s) && Draws(s, i)
    ensures var r := Paint(s, false, i);
            && r.strips.animActive == WantAnim(Take(s.page).dims, s.sleep.drifted, i)
            && (i.outcome.Yes? ==> r.gpu.chromeLw == i.lw && r.gpu.chromeLh == i.lh)
            && r.retryAt == (if i.outcome.No? then Some(s.sleep.clock + 8) else None)
  {
    hide PaintSleep, Polled, WantAnim;
  }

  /**
   When a paint reaches the renderer: past the sleep guard, and with something to show, which is a dirty
   chrome, a frame just taken, an animation that runs, or one that has to be cleared. And the animation
   runs exactly where no page of about the right size is there, or the surface is at another size than
   it was painted for, unless the engine draws by itself.
  */
  lemma PaintDrawsIff(s: State, i: PaintInput)
    requires Bounds(s)
    ensures var polled := Polled(s.sleep, i.stats);
            var dims := Take(s.page).dims;
            var misfit := dims.None? || dims.value.0 > i.browserW + 32 || i.browserW > dims.value.0 + 32
                          || dims.value.1 > i.browserH + 32 || i.browserH > dims.value.1 + 32;
            var animates := !i.native && (misfit || s.sleep.drifted);
            && (Draws(s, i) <==>
                  && (polled.policy.Active? || polled.drifted || s.sleep.probePending)
                  && (s.strips.chromeGen != s.strips.paintedGen || Take(s.page) != s.page
                      || animates || s.strips.animActive))
            && (Draws(s, i) ==> Paint(s, false, i).strips.animActive == animates)
            && (!Draws(s, i) ==> Paint(s, false, i) == s.(sleep := Paint(s, false, i).sleep))
  {
    hide Polled, PaintSleep, DrawFrame;
    if Draws(s, i) { DrawnFlags(s, i); }
    if Fresh(s.page) {
      assert |Take(s.page).consumed| == |s.page.consumed| + 1;
    }
  }

  /** Every row outside the page region lies in a band, so strips survive both masking and animation. */
  lemma StripsShowThrough(c: Chrome, splash: Option<Draw>, lw: nat, lh: nat, k: nat)
    requires k < lh * lw && !InBrowser(lw, lh, c.notice, k)
    ensures ChromeBuffer(c, splash, lw, lh)[k] == c.draw(lw, lh, k)
  {
    var (y, h) := BrowserRows(lh, c.notice);
    var topH := Min(TAB_STRIP_HEIGHT + DOWNLOAD_NOTICE_HEIGHT, lh);
    var bottomH := Min(STATUSLINE_HEIGHT, lh - topH);
    RowsInside(lw, y, topH);
    if k >= (y + h) * lw && k >= topH * lw {
      assert lh - bottomH <= Max(y + h, topH);
      RowsInside(lw, lh - bottomH, Max(y + h, topH));
    }
  }

  // ---- the page texture, one engine -------------------------------------------------------------

  predicate Ordered(consumed: seq<(nat, nat)>) {
    forall i, j :: 0 <= i < j < |consumed| && consumed[i].0 == consumed[j].0 ==> consumed[i].1 < consumed[j].1
  }

  /** The watermark stands between what was consumed of the active engine and what it has painted. */
  predicate Sync(p: Page) {
    && p.active in p.frames
    && p.lastGen <= p.frames[p.active].generation
    && Ordered(p.consumed)
    && (forall j :: 0 <= j < |p.consumed| && p.consumed[j].0 == p.active ==> p.consumed[j].1 <= p.lastGen)
  }

  /**
   The texture never runs ahead of the watermark, and what it holds of the current generation is the
   scratch buffer.
  */
  predicate TextureInv(p: Page, t: OsrTexture) {
    t.Texture? && t.lastGeneration.Some? ==>
      && t.lastGeneration.value <= p.lastGen
      && (t.lastGeneration.value == p.lastGen && p.dims.Some? ==>
            Holds(t, p.dims.value.0, p.dims.value.1, p.scratch))
  }

  predicate PageInv(s: State) {
    Bounds(s) && Sync(s.page) && TextureInv(s.page, s.gpu.osr)
  }

  /** A frame that skips its pixels would find the scratch buffer on the GPU. */
  predicate Agree(s: State) {
    s.page.dims.Some? && !s.page.stale ==>
      Holds(s.gpu.osr, s.page.dims.value.0, s.page.dims.value.1, s.page.scratch)
  }

  /** The same by generation: the texture carries the generation the scratch buffer came from. */
  predicate InStep(s: State) {
    s.page.dims.Some? && !s.page.stale ==> s.gpu.osr.Texture? && s.gpu.osr.lastGeneration == Some(s.page.lastGen)
  }

  lemma InStepImpliesAgree(s: State)
    requires PageInv(s) && InStep(s)
    ensures Agree(s)
  {
  }

  function PathOf(s: State, i: PaintInput): PaintPath {
    var dims := Take(s.page).dims;
    DecidePaintPath(WantAnim(dims, s.sleep.drifted, i), Fresh(s.page), dims)
  }

  /** The animation arm swapped a fresh frame out while the stale flag was down. */
  predicate Leaks(s: State, i: PaintInput) {
    Draws(s, i) && PathOf(s, i).Animation? && Fresh(s.page) && !s.page.stale
  }

  /** The page's own pixels travelled, or the stale flag records that they have not arrived. */
  predicate Restores(s: State, i: PaintInput) {
    Draws(s, i) && (PathOf(s, i).FreshOsr? || (PathOf(s, i).SyntheticScratch? && !i.outcome.Yes?))
  }

  lemma TakeKeepsSync(p: Page)
    requires Sync(p)
    ensures var q := Take(p).(lastGen := TakenGeneration(p));
            Sync(q) && (Fresh(p) ==> q.lastGen > p.lastGen)
  {
  }

  /** The page half of a frame, on a page whose swap is done. */
  lemma DrawnPage(s: State, took: bool, gen: nat, wantAnim: bool, i: PaintInput)
    requires Bounds(s) && (took ==> s.page.dims.Some?)
    requires var t := s.gpu.osr;
             t.Texture? && t.lastGeneration.Some? ==>
               && t.lastGeneration.value <= gen
               && (t.lastGeneration.value == gen && s.page.dims.Some? ==>
                     !took && Holds(t, s.page.dims.value.0, s.page.dims.value.1, s.page.scratch))
    ensures var r := DrawFrame(s, took, gen, wantAnim, false, i);
            var path := DecidePaintPath(wantAnim, took, s.page.dims);
            && TextureInv(r.page, r.gpu.osr)
            && (path.FreshOsr? && i.outcome.Yes? ==> InStep(r))
            && (path.SyntheticScratch? && i.outcome.Yes? ==>
                  (InStep(r) <==> s.page.stale || (s.gpu.osr.Texture? && s.gpu.osr.lastGeneration == Some(gen))))
            && (path.Animation? || path.DeadFallback? || !i.outcome.Yes? ==> r.gpu.osr == s.gpu.osr)
  {
    var path := DecidePaintPath(wantAnim, took, s.page.dims);
    var upload := PageUpload(s.page, path, gen);
    if i.outcome.Yes? && upload.Some? && !upload.value.skipPixels {
      RealUploadHoldsIff(s.gpu.osr, upload.value);
    }
  }

  /**
   One paint: the generations stay in order and the texture stays behind the watermark; and
   skipping pixels stays sound exactly unless the animation arm leaks this frame, until page
   pixels travel again or a failed frame raises the stale flag.
  */
  lemma PaintPage(s: State, i: PaintInput)
    requires PageInv(s)
    ensures var r := Paint(s, false, i);
            && PageInv(r)
            && (InStep(r) <==> (InStep(s) && !Leaks(s, i)) || Restores(s, i))
            && (Leaks(s, i) ==>
                  && r.gpu.osr == s.gpu.osr && r.page.dims.Some? && !r.page.stale
                  && r.page.scratch == s.page.frames[s.page.active].pixels)
            && r.page.lastGen >= s.page.lastGen
  {
    hide PaintSleep, Polled;
    var taken := s.(page := Take(s.page));
    var gen := TakenGeneration(s.page);
    TakeKeepsSync(s.page);
    var wantAnim := WantAnim(taken.page.dims, s.sleep.drifted, i);
    DrawnPage(taken, Fresh(s.page), gen, wantAnim, i);
  }

  /** The paint an event performs, with the state and input it is performed on. */
  function PaintOf(s: State, t: TimedEvent): Option<(State, PaintInput)> {
    var now := s.(sleep := s.sleep.(clock := s.sleep.clock + t.dt));
    match t.event
    case Resized(i) =>
      Some((now.(strips := MarkChromeDirty(s.strips, s.strips.chrome), sleep := now.sleep.(drifted := true)), i))
    case Redraw(i) => Some((now.(sleep := now.sleep.(redraw := false)), i))
    case _ => None
  }

  predicate StepLeaks(s: State, t: TimedEvent) {
    var p := PaintOf(s, t);
    p.Some? && Leaks(p.value.0, p.value.1)
  }

  predicate StepRestores(s: State, t: TimedEvent) {
    var p := PaintOf(s, t);
    p.Some? && Restores(p.value.0, p.value.1)
  }

  lemma PaintOfIsStep(s: State, wide: bool, t: TimedEvent)
    requires Bounds(s) && PaintOf(s, t).Some?
    ensures var (u, i) := PaintOf(s, t).value;
            && u.page == s.page && u.gpu == s.gpu && Bounds(u)
            && Step(s, wide, t) == Paint(u, wide, i)
  {
    hide Paint;
  }

  lemma SamePage(s: State, t: State)
    requires s.page == t.page && s.gpu == t.gpu
    ensures PageInv(s) == PageInv(t) && InStep(s) == InStep(t)
  {
  }

  lemma QuietPage(s: State, t: TimedEvent)
    requires Bounds(s) && PaintOf(s, t) == None
    ensures Step(s, false, t).gpu == s.gpu
    ensures t.event.ChromeChanged? || t.event.Signal? || t.event.AboutToWait? || t.event.KeySwitch?
            ==> Step(s, false, t).page == s.page
  {
    RetryTouchesNothing(s.(sleep := StepSleep(s.sleep, Timed(t.dt, Occlusion.AboutToWait))));
  }

  lemma UntouchedPage(s: State, t: TimedEvent)
    requires PageInv(s)
    requires t.event.ChromeChanged? || t.event.Signal? || t.event.AboutToWait? || t.event.KeySwitch?
    ensures var r := Step(s, false, t);
            PageInv(r) && InStep(r) == InStep(s) && r.page == s.page && r.gpu == s.gpu
  {
    QuietPage(s, t);
    SamePage(s, Step(s, false, t));
  }

  lemma ProducedKeepsSync(s: State, t: TimedEvent)
    requires PageInv(s) && (t.event.Produce? || t.event.ViewResized?)
    ensures var r := Step(s, false, t);
            PageInv(r) && InStep(r) == InStep(s) && r.page.lastGen == s.page.lastGen
  {
  }

  lemma SwitchTabKeepsSync(s: State, t: TimedEvent)
    requires PageInv(s) && t.event.TabSwitch?
    ensures var r := Step(s, false, t);
            PageInv(r) && InStep(r) && r.page.lastGen >= s.page.lastGen
  {
  }

  lemma PaintingStepPage(s: State, t: TimedEvent)
    requires PageInv(s) && PaintOf(s, t).Some?
    ensures var r := Step(s, false, t);
            && PageInv(r)
            && (InStep(r) <==> (InStep(s) && !StepLeaks(s, t)) || StepRestores(s, t))
            && r.page.lastGen >= s.page.lastGen
  {
    hide Step, InStep, Leaks, Restores, Paint, PageInv;
    assert Bounds(s) by { BoundsOf(s); }
    PaintOfIsStep(s, false, t);
    var (u, i) := PaintOf(s, t).value;
    SamePage(s, u);
    PaintPage(u, i);
  }

  lemma BoundsOf(s: State)
    requires PageInv(s)
    ensures Bounds(s)
  {
  }

  /** Every event but a hand-over to another engine, and what it does to the caches. */
  lemma StepPage(s: State, t: TimedEvent)
    requires PageInv(s) && !t.event.EngineSwitch?
    ensures var r := Step(s, false, t);
            && PageInv(r)
            && (InStep(r) <==>
                  t.event.TabSwitch? || (InStep(s) && !StepLeaks(s, t)) || StepRestores(s, t))
            && r.page.lastGen >= s.page.lastGen
  {
    hide Step, InStep, Leaks, Restores, Paint;
    match t.event
    case Produce(e, f) => ProducedKeepsSync(s, t);
    case ViewResized(e, w, h) => ProducedKeepsSync(s, t);
    case TabSwitch => SwitchTabKeepsSync(s, t);
    case Resized(i) => PaintingStepPage(s, t);
    case Redraw(i) => PaintingStepPage(s, t);
    case KeySwitch => UntouchedPage(s, t);
    case EngineSwitch(e) =>
    case ChromeChanged(c) => UntouchedPage(s, t);
    case Signal(e) => UntouchedPage(s, t);
    case AboutToWait => UntouchedPage(s, t);
  }

  // ---- every run with one engine ----------------------------------------------------------------

  predicate OneEngine(events: seq<TimedEvent>) {
    forall j :: 0 <= j < |events| ==> !events[j].event.EngineSwitch?
  }

  /** No paint of the run has its fresh frame taken by the animation arm with the stale flag down. */
  predicate NoLeak(s: State, events: seq<TimedEvent>)
    requires Bounds(s)
    decreases |events|
  {
    events == [] || (!StepLeaks(s, events[0]) && NoLeak(Step(s, false, events[0]), events[1..]))
  }

  /**
   What a paint consumes: the active engine's frame, exactly if the sleep guard admits the paint, no
   resize has passed since the frame was painted, it is of the size asked for, its buffer is whole, and
   its generation is not the one consumed last.
  */
  lemma PaintConsumesIff(s: State, i: PaintInput)
    requires Bounds(s)
    ensures var p, r := s.page, Paint(s, false, i).page;
            && (r.consumed != p.consumed <==>
                  && Admitted(Polled(s.sleep, i.stats), s.sleep.probePending)
                  && p.active in p.frames && p.active in p.views
                  && var f := p.frames[p.active];
                     && !f.needsFresh && f.width > 0 && f.height > 0 && (f.width, f.height) == p.views[p.active]
                     && |f.pixels| == f.width * f.height * 4 && f.generation != p.lastGen)
            && (r.consumed != p.consumed ==>
                  && r.consumed == p.consumed + [(p.active, p.frames[p.active].generation)]
                  && r.scratch == p.frames[p.active].pixels && r.lastGen == p.frames[p.active].generation
                  && r.dims == Some((p.frames[p.active].width, p.frames[p.active].height))
                  && r.frames == p.frames[p.active := p.frames[p.active].(pixels := p.scratch)])
            && (r.consumed == p.consumed ==>
                  r.scratch == p.scratch && r.lastGen == p.lastGen && r.dims == p.dims && r.frames == p.frames)
  {
    hide PaintSleep, Polled;
  }

  /** The active engine's frame waits for a fresh paint, and nothing of it has been shown since `p`. */
  predicate Awaits(p: Page, q: Page) {
    && q.active == p.active && q.active in q.frames && q.frames[q.active].needsFresh
    && q.consumed == p.consumed && q.scratch == p.scratch
  }

  lemma AwaitsStep(p: Page, s: State, t: TimedEvent)
    requires Bounds(s) && Awaits(p, s.page)
    requires !t.event.EngineSwitch? && !(t.event.Produce? && t.event.engine == p.active)
    ensures Awaits(p, Step(s, false, t).page)
  {
    if PaintOf(s, t).Some? {
      PaintOfIsStep(s, false, t);
      var (u, i) := PaintOf(s, t).value;
      hide Step, Paint, PaintOf;
      PaintConsumesIff(u, i);
    } else {
      QuietPage(s, t);
    }
  }

  lemma {:induction false} RunAwaits(p: Page, s: State, events: seq<TimedEvent>)
    requires Bounds(s) && Awaits(p, s.page) && OneEngine(events)
    requires forall j :: 0 <= j < |events| ==> !(events[j].event.Produce? && events[j].event.engine == p.active)
    ensures Awaits(p, Run(s, false, events).page)
    decreases |events|
  {
    if events != [] {
      AwaitsStep(p, s, events[0]);
      RunAwaits(p, Step(s, false, events[0]), events[1..]);
    }
  }

  /**
   After a resize nothing is consumed until the engine paints again, even if later resizes bring the
   view back to the size of the frame that is lying there.
  */
  lemma ResizeWaitsForPaint(s: State, dt: nat, w: nat, h: nat, events: seq<TimedEvent>)
    requires Bounds(s) && s.page.active in s.page.frames && OneEngine(events)
    requires forall j :: 0 <= j < |events| ==>
               !(events[j].event.Produce? && events[j].event.engine == s.page.active)
    ensures var a := Step(s, false, TimedEvent(dt, ViewResized(s.page.active, w, h)));
            var r := Run(a, false, events).page;
            r.consumed == s.page.consumed && r.scratch == s.page.scratch
  {
    RunAwaits(s.page, Step(s, false, TimedEvent(dt, ViewResized(s.page.active, w, h))), events);
  }

  /**
   Single consumption: while the window stays with one engine, across tab switches, resizes and
   any mix of paint paths and outcomes, no generation is swapped out twice, consumed generations
   strictly increase, and every upload fits its buffer.
  */
  lemma {:induction false} EachGenerationConsumedOnce(s: State, events: seq<TimedEvent>)
    requires PageInv(s) && OneEngine(events)
    ensures var r := Run(s, false, events);
            PageInv(r) && Ordered(r.page.consumed) && r.page.lastGen >= s.page.lastGen
    decreases |events|
  {
    if events != [] {
      StepPage(s, events[0]);
      EachGenerationConsumedOnce(Step(s, false, events[0]), events[1..]);
    }
  }

  /** If no paint of the run leaks, a frame that skips its pixels always finds them on the GPU. */
  lemma {:induction false} SkippedPixelsAreOnTheGpu(s: State, events: seq<TimedEvent>)
    requires PageInv(s) && InStep(s) && OneEngine(events) && NoLeak(s, events)
    ensures var r := Run(s, false, events);
            PageInv(r) && InStep(r) && Agree(r)
    decreases |events|
  {
    if events != [] {
      StepPage(s, events[0]);
      SkippedPixelsAreOnTheGpu(Step(s, false, events[0]), events[1..]);
    } else {
      InStepImpliesAgree(s);
    }
  }

  /** An event after which nothing newer is there to show and no frame has failed. */
  predicate Smooth(t: TimedEvent) {
    match t.event
    case Resized(i) => i.outcome.Yes?
    case Redraw(i) => i.outcome.Yes?
    case ChromeChanged(_) => true
    case Signal(_) => true
    case AboutToWait => true
    case _ => false
  }

  lemma SmoothStepStaysLeaked(s: State, t: TimedEvent)
    requires PageInv(s) && !InStep(s) && !Fresh(s.page) && Smooth(t)
    ensures var r := Step(s, false, t);
            PageInv(r) && !InStep(r) && !Fresh(r.page) && r.page.scratch == s.page.scratch
  {
    StepPage(s, t);
    if PaintOf(s, t).Some? {
      PaintOfIsStep(s, false, t);
      var (u, i) := PaintOf(s, t).value;
      UnfreshPaintKeepsPicture(u, i);
    } else {
      QuietPage(s, t);
    }
  }

  lemma UnfreshPaintKeepsPicture(s: State, i: PaintInput)
    requires Bounds(s) && !Fresh(s.page)
    ensures var r := Paint(s, false, i);
            && r.page.scratch == s.page.scratch && r.page.lastGen == s.page.lastGen && !Fresh(r.page)
            && r.page.dims == s.page.dims
  {
    hide PaintSleep, Polled;
  }

  /** A leaked frame stays off the screen through any number of successful repaints of an unchanged page. */
  lemma {:induction false} LeakedFrameStaysHidden(s: State, events: seq<TimedEvent>)
    requires PageInv(s) && !InStep(s) && !Fresh(s.page)
    requires forall j :: 0 <= j < |events| ==> Smooth(events[j])
    ensures var r := Run(s, false, events);
            && r.page.dims.Some? && !r.page.stale && r.page.scratch == s.page.scratch
            && !(r.gpu.osr.Texture? && r.gpu.osr.lastGeneration == Some(r.page.lastGen))
    decreases |events|
  {
    if events != [] {
      SmoothStepStaysLeaked(s, events[0]);
      LeakedFrameStaysHidden(Step(s, false, events[0]), events[1..]);
    }
  }

  /** The resize arm forces the animation, so a resize that meets a fresh frame leaks it. */
  lemma ResizeLeaksFreshFrame(s: State, dt: nat, i: PaintInput)
    requires PageInv(s) && InStep(s) && Fresh(s.page) && !s.page.stale && !i.native
    ensures var r := Step(s, false, TimedEvent(dt, Event.Resized(i)));
            && !InStep(r) && !Fresh(r.page) && r.page.dims.Some? && !r.page.stale
            && r.gpu.osr == s.gpu.osr
            && r.page.scratch == s.page.frames[s.page.active].pixels
  {
    var t := TimedEvent(dt, Event.Resized(i));
    PaintOfIsStep(s, false, t);
    var (u, j) := PaintOf(s, t).value;
    SamePage(s, u);
    assert u.sleep.drifted && Admitted(Polled(u.sleep, j.stats), u.sleep.probePending) by {
      PollKeepsDrift(u.sleep, j.stats);
    }
    assert Leaks(u, j);
    PaintPage(u, j);
    TakenIsSeen(u, j);
  }

  lemma PollKeepsDrift(s: Sleep, stats: Option<nat>)
    ensures Polled(s, stats).drifted == s.drifted
  {
  }

  lemma TakenIsSeen(s: State, i: PaintInput)
    requires Bounds(s) && Draws(s, i)
    ensures !Fresh(Paint(s, false, i).page)
  {
    hide PaintSleep, Polled;
  }

  /**
   A frame the renderer skips arms the retry, and the first tick 8 ms on or later requests the redraw;
   no earlier one does.
  */
  lemma SkippedFrameIsRetried(s: State, i: PaintInput, dt: nat)
    requires Bounds(s) && Draws(s, i) && i.outcome.No?
    ensures var a := Paint(s, false, i);
            var b := Step(a, false, TimedEvent(dt, Event.AboutToWait));
            && a.retryAt == Some(s.sleep.clock + 8)
            && (dt >= 8 ==> b.sleep.redraw && b.retryAt == None)
            && (dt < 8 ==> b.retryAt == a.retryAt)
  {
    var a := Paint(s, false, i);
    PaintKeepsClock(s.sleep, i.stats, Drew(i.outcome, i.liveDrift));
    hide PaintSleep, Polled;
    WaitKeepsClock(a.sleep, dt);
    hide StepSleep;
  }

  lemma WaitKeepsClock(s: Sleep, dt: nat)
    ensures StepSleep(s, Timed(dt, Occlusion.AboutToWait)).clock == s.clock + dt
  {
  }

  // ---- a skipped page frame and the idle short-circuit ------------------------------------------

  /** The page is behind, and nothing the short-circuit looks at says so. */
  predicate Stranded(s: State, browserW: nat, browserH: nat) {
    && Bounds(s)
    && s.page.stale && s.page.dims.Some? && !Fresh(s.page)
    && s.strips.chromeGen == s.strips.paintedGen && !s.strips.animActive
    && !s.sleep.drifted && !ShouldShowLoadingAnim(s.page.dims, browserW, browserH)
  }

  /** Redraws at an unchanged layout, focus and occlusion signals, and the ticks that serve the retry timer. */
  predicate Quiet(t: TimedEvent, browserW: nat, browserH: nat) {
    match t.event
    case Redraw(i) => i.browserW == browserW && i.browserH == browserH
    case Signal(_) => true
    case AboutToWait => true
    case _ => false
  }

  lemma SleepStepKeepsDrift(s: Sleep, t: Timed)
    requires t.event.Focused? || t.event.OccludedSignal? || t.event.AboutToWait?
    ensures StepSleep(s, t).drifted == s.drifted
  {
  }

  lemma IdlePaintKeepsDrift(s: Sleep, stats: Option<nat>)
    ensures PaintSleep(s, stats, Idle).drifted == s.drifted
  {
    hide Observe;
    if stats.Some? {
      PollKeepsDrift(s, stats);
    }
  }

  lemma StrandedStep(s: State, t: TimedEvent, browserW: nat, browserH: nat)
    requires Stranded(s, browserW, browserH) && Quiet(t, browserW, browserH)
    ensures var r := Step(s, false, t);
            Stranded(r, browserW, browserH) && r.page == s.page && r.gpu == s.gpu
  {
    hide PaintSleep, Polled, StepSleep;
    match t.event
    case Redraw(i) =>
      PaintOfIsStep(s, false, t);
      var (u, j) := PaintOf(s, t).value;
      IdlePaintKeepsDrift(u.sleep, i.stats);
      assert ShortCircuits(u.strips, false, false);
    case Signal(e) => if e.Focused? || e.OccludedSignal? { SleepStepKeepsDrift(s.sleep, Timed(t.dt, e)); }
    case AboutToWait =>
      SleepStepKeepsDrift(s.sleep, Timed(t.dt, Occlusion.AboutToWait));
      RetryTouchesNothing(s.(sleep := StepSleep(s.sleep, Timed(t.dt, Occlusion.AboutToWait))));
  }

  lemma {:induction false} StrandedStaysStranded(s: State, events: seq<TimedEvent>, browserW: nat, browserH: nat)
    requires Stranded(s, browserW, browserH)
    requires forall j :: 0 <= j < |events| ==> Quiet(events[j], browserW, browserH)
    ensures var r := Run(s, false, events);
            Stranded(r, browserW, browserH) && r.page == s.page && r.gpu == s.gpu
    decreases |events|
  {
    if events != [] {
      StrandedStep(s, events[0], browserW, browserH);
      StrandedStaysStranded(Step(s, false, events[0]), events[1..], browserW, browserH);
    }
  }

  /**
   A page frame the renderer skips while the chrome is clean arms its retry in vain: no number of
   retries, redraws and wake-ups ever sends the pixels, because the short-circuit does not look at
   the stale flag.
  */
  lemma SkippedPageFrameIsStranded(s: State, i: PaintInput, events: seq<TimedEvent>)
    requires Bounds(s) && Draws(s, i) && PathOf(s, i).FreshOsr? && i.outcome.No? && !i.liveDrift
    requires s.strips.chromeGen == s.strips.paintedGen && !i.native
    requires forall j :: 0 <= j < |events| ==> Quiet(events[j], i.browserW, i.browserH)
    ensures var a := Paint(s, false, i);
            var r := Run(a, false, events);
            && a.retryAt.Some? && a.page.stale
            && r.page.stale && r.gpu == s.gpu
  {
    var a := Paint(s, false, i);
    assert !a.sleep.drifted by { SkippedDrawDrift(s.sleep, i.stats, i.outcome); }
    TakenIsSeen(s, i);
    DrawnStrips(s, i);
    assert Stranded(a, i.browserW, i.browserH);
    StrandedStaysStranded(a, events, i.browserW, i.browserH);
  }

  lemma SkippedDrawDrift(s: Sleep, stats: Option<nat>, o: Outcome)
    requires Admitted(Polled(s, stats), s.probePending) && o.No?
    ensures !PaintSleep(s, stats, Drew(o, false)).drifted
  {
    hide Polled;
  }

  lemma DrawnStrips(s: State, i: PaintInput)
    requires Bounds(s) && Draws(s, i) && PathOf(s, i).FreshOsr? && i.outcome.No?
    requires s.strips.chromeGen == s.strips.paintedGen
    ensures var a := Paint(s, false, i);
            && a.page.stale && a.page.dims.Some? && a.gpu == s.gpu && a.retryAt.Some?
            && a.page.dims == Take(s.page).dims
            && a.strips.chromeGen == a.strips.paintedGen && !a.strips.animActive
  {
    hide PaintSleep, Polled;
  }

  /**
   Exactly when a retry carries the skipped page to the GPU: the chrome is dirty or the animation
   has just ended, so that the short-circuit lets the paint through.
  */
  lemma RetryReachesGpuIff(s: State, i: PaintInput)
    requires PageInv(s) && s.page.stale && s.page.dims.Some? && !Fresh(s.page)
    requires Admitted(Polled(s.sleep, i.stats), s.sleep.probePending)
    requires !WantAnim(s.page.dims, s.sleep.drifted, i) && i.outcome.Yes?
    ensures var r := Paint(s, false, i);
            && (!r.page.stale <==> s.strips.chromeGen != s.strips.paintedGen || s.strips.animActive)
            && (!r.page.stale ==> Holds(r.gpu.osr, s.page.dims.value.0, s.page.dims.value.1, s.page.scratch))
            && (r.page.stale ==> r.gpu == s.gpu)
  {
    PaintPage(s, i);
    UnfreshPaintKeepsPicture(s, i);
    RetryDraws(s, i);
    if !Paint(s, false, i).page.stale {
      InStepImpliesAgree(Paint(s, false, i));
    }
  }

  lemma RetryDraws(s: State, i: PaintInput)
    requires PageInv(s) && s.page.stale && s.page.dims.Some? && !Fresh(s.page)
    requires Admitted(Polled(s.sleep, i.stats), s.sleep.probePending)
    requires !WantAnim(s.page.dims, s.sleep.drifted, i) && i.outcome.Yes?
    ensures var r := Paint(s, false, i);
            && (Draws(s, i) <==> s.strips.chromeGen != s.strips.paintedGen || s.strips.animActive)
            && (Draws(s, i) ==> !r.page.stale && InStep(r))
            && (!Draws(s, i) ==> r.page == s.page && r.gpu == s.gpu)
  {
    hide PaintSleep, Polled;
    DrawnPage(s, false, s.page.lastGen, false, i);
  }

  // ---- several engines --------------------------------------------------------------------------

  /**
   A tab switch hides what the previous tab showed: from then on only generations newer than the
   watermark it seeds are ever swapped out, and no page picture is sent before the first of them.
  */
  predicate Newer(p: Page, engine: nat, seed: nat, from: nat) {
    && p.active == engine && p.lastGen >= seed
    && (p.dims.Some? ==> p.lastGen > seed)
    && from <= |p.consumed|
    && (forall j :: from <= j < |p.consumed| ==> p.consumed[j].0 == engine && p.consumed[j].1 > seed)
  }

  lemma NewerStep(s: State, t: TimedEvent, seed: nat, from: nat)
    requires PageInv(s) && Newer(s.page, s.page.active, seed, from) && !t.event.EngineSwitch?
    ensures Newer(Step(s, false, t).page, s.page.active, seed, from)
  {
    if PaintOf(s, t).Some? {
      PaintOfIsStep(s, false, t);
      var (u, i) := PaintOf(s, t).value;
      NewerPaint(u, i, seed, from);
    } else if !t.event.TabSwitch? {
      QuietPage(s, t);
    }
  }

  lemma NewerPaint(s: State, i: PaintInput, seed: nat, from: nat)
    requires PageInv(s) && Newer(s.page, s.page.active, seed, from)
    ensures Newer(Paint(s, false, i).page, s.page.active, seed, from)
  {
    hide PaintSleep, Polled;
    TakeKeepsSync(s.page);
  }

  lemma {:induction false} RunStaysNewer(s: State, events: seq<TimedEvent>, seed: nat, from: nat)
    requires PageInv(s) && Newer(s.page, s.page.active, seed, from) && OneEngine(events)
    ensures Newer(Run(s, false, events).page, s.page.active, seed, from)
    decreases |events|
  {
    if events != [] {
      NewerStep(s, events[0], seed, from);
      StepPage(s, events[0]);
      RunStaysNewer(Step(s, false, events[0]), events[1..], seed, from);
    }
  }

  lemma TabSwitchShowsOnlyNewer(s: State, dt: nat, events: seq<TimedEvent>)
    requires PageInv(s) && OneEngine(events)
    ensures var seed := s.page.frames[s.page.active].generation;
            var a := Step(s, false, TimedEvent(dt, TabSwitch));
            && a.page.dims == None
            && Newer(Run(a, false, events).page, s.page.active, seed, |s.page.consumed|)
  {
    var t := TimedEvent(dt, TabSwitch);
    StepPage(s, t);
    RunStaysNewer(Step(s, false, t), events, s.page.frames[s.page.active].generation, |s.page.consumed|);
  }

  /** Events after a keyboard switch during which the active engine paints nothing and no other switch happens. */
  predicate Unpainted(t: TimedEvent, engine: nat) {
    match t.event
    case Produce(e, _) => e != engine
    case TabSwitch => false
    case EngineSwitch(_) => false
    case _ => true
  }

  /**
   The picture after a keyboard switch, until the new tab paints: the one that was up, or the frame of
   the old tab that the gate had yet to accept.
  */
  predicate OldPicture(p: Page, q: Page) {
    && q.active == p.active && q.active in p.frames && q.active in q.frames
    && q.frames[p.active].generation == p.frames[p.active].generation
    && (if q.lastGen == p.lastGen
        then q.dims == p.dims && q.scratch == p.scratch
             && q.frames[p.active] == p.frames[p.active].(needsFresh := q.frames[p.active].needsFresh)
        else q.lastGen == p.frames[p.active].generation
             && q.dims == Some((p.frames[p.active].width, p.frames[p.active].height))
             && q.scratch == p.frames[p.active].pixels)
  }

  lemma OldPictureStep(p: Page, s: State, t: TimedEvent)
    requires PageInv(s) && OldPicture(p, s.page) && Unpainted(t, p.active) && p.lastGen <= p.frames[p.active].generation
    ensures OldPicture(p, Step(s, false, t).page)
  {
    if PaintOf(s, t).Some? {
      PaintOfIsStep(s, false, t);
      var (u, i) := PaintOf(s, t).value;
      hide Step, PaintOf;
      OldPicturePaint(p, u, i);
    } else {
      QuietPage(s, t);
    }
  }

  lemma OldPicturePaint(p: Page, s: State, i: PaintInput)
    requires PageInv(s) && OldPicture(p, s.page) && p.lastGen <= p.frames[p.active].generation
    ensures OldPicture(p, Paint(s, false, i).page)
  {
    hide PaintSleep, Polled;
  }

  lemma {:induction false} RunKeepsOldPicture(p: Page, s: State, events: seq<TimedEvent>)
    requires PageInv(s) && OldPicture(p, s.page) && p.lastGen <= p.frames[p.active].generation
    requires forall j :: 0 <= j < |events| ==> Unpainted(events[j], p.active)
    ensures PageInv(Run(s, false, events)) && OldPicture(p, Run(s, false, events).page)
    decreases |events|
  {
    if events != [] {
      OldPictureStep(p, s, events[0]);
      StepPage(s, events[0]);
      RunKeepsOldPicture(p, Step(s, false, events[0]), events[1..]);
    }
  }

  /**
   Keyboard switches and closes seed nothing: through any run in which the new tab has not painted, the
   window keeps the old tab's picture, and would even take a last frame of the old tab that it had not
   shown yet; a tab switch from the same state has no picture at all until the new tab paints.
  */
  lemma KeySwitchKeepsOldPicture(s: State, dt: nat, events: seq<TimedEvent>)
    requires PageInv(s) && forall j :: 0 <= j < |events| ==> Unpainted(events[j], s.page.active)
    ensures var a := Step(s, false, TimedEvent(dt, KeySwitch));
            var b := Step(s, false, TimedEvent(dt, TabSwitch));
            var q := Run(a, false, events).page;
            && OldPicture(s.page, q) && (s.page.dims.Some? ==> q.dims.Some?)
            && Run(b, false, events).page.dims == None
  {
    var t, u := TimedEvent(dt, KeySwitch), TimedEvent(dt, TabSwitch);
    StepPage(s, t);
    StepPage(s, u);
    RunKeepsOldPicture(s.page, Step(s, false, t), events);
    var b := Step(s, false, u);
    RunKeepsOldPicture(b.page, b, events);
  }

  /**
   The old picture gives way in a paint exactly if the sleep guard lets it swap and the gate accepts a
   frame newer than `seed`, the generation at the switch; the new frame is then what is shown.
  */
  lemma OldPictureGivesWayIff(s: State, i: PaintInput, seed: nat)
    requires PageInv(s) && s.page.lastGen <= seed
    ensures var r, f := Paint(s, false, i), s.page.frames[s.page.active];
            && (r.page.lastGen > seed <==>
                  Admitted(Polled(s.sleep, i.stats), s.sleep.probePending) && Fresh(s.page) && f.generation > seed)
            && (r.page.lastGen > seed ==> r.page.scratch == f.pixels && r.page.dims == Some((f.width, f.height)))
  {
    hide PaintSleep, Polled;
  }

  /**
   Handing the window to another engine seeds no watermark. If that engine has painted nothing
   since its last generation was consumed, the gate still accepts the old generation a second time
   exactly when the watermark left behind differs from it and the buffer handed back happens to
   have the right length; a tab switch on the new engine would have prevented it.
  */
  lemma EngineSwitchReconsumesIff(s: State, dt: nat, e: nat)
    requires Bounds(s) && e in s.page.frames && e in s.page.views
    requires var f := s.page.frames[e];
             && (e, f.generation) in s.page.consumed
             && f.width > 0 && f.height > 0 && (f.width, f.height) == s.page.views[e] && !f.needsFresh
    ensures var p, q := s.page, Step(s, false, TimedEvent(dt, EngineSwitch(e))).page;
            && q == p.(active := e)
            && (Fresh(q) <==> p.lastGen != p.frames[e].generation
                              && |p.frames[e].pixels| == ByteLen(p.frames[e].width, p.frames[e].height))
            && (Fresh(q) ==> !Ordered(Take(q).consumed) && Take(q).scratch == p.frames[e].pixels)
            && !Fresh(SwitchTab(q))
  {
    var p, q := s.page, s.page.(active := e);
    if Fresh(q) {
      var j :| 0 <= j < |p.consumed| && p.consumed[j] == (e, p.frames[e].generation);
      assert Take(q).consumed[j] == Take(q).consumed[|p.consumed|];
    }
  }

  /** The same size, generation and watermark in two engines: a run that consumes one generation twice. */
  lemma EngineSwitchCanReconsume()
    ensures exists p: Page, e: nat ::
      && Sync(p) && e in p.frames && Fresh(p.(active := e))
      && (e, p.frames[e].generation) in p.consumed
  {
    var f := Frame(1, 1, [0, 0, 0, 0], 1, false);
    var g := f.(generation := 2);
    var p := Page(map[0 := f, 1 := g], map[0 := (1, 1), 1 := (1, 1)], 1, [0, 0, 0, 0], 2, Some((1, 1)), false,
                  [(0, 1), (1, 2)]);
    assert ByteLen(1, 1) == 4;
    assert (0, 1) == p.consumed[0];
    assert Fresh(p.(active := 0));
  }

  /**
   Whatever the engines, a submitted fresh frame is what the page texture holds afterwards exactly
   unless the texture already carries its size and generation with other pixels: generations are
   counted per engine, but the worker compares them across engines.
  */
  lemma FreshFrameIsShownIff(s: State, i: PaintInput)
    requires Bounds(s) && Draws(s, i) && PathOf(s, i).FreshOsr? && i.outcome.Yes?
    ensures var f := s.page.frames[s.page.active];
            var r := Paint(s, false, i);
            && !r.page.stale
            && (Holds(r.gpu.osr, f.width, f.height, f.pixels)
                <==> !Collides(s.gpu.osr, OsrUpload(f.pixels, f.width, f.height, f.generation, false)))
  {
    hide PaintSleep, Polled;
    var f := s.page.frames[s.page.active];
    RealUploadHoldsIff(s.gpu.osr, OsrUpload(f.pixels, f.width, f.height, f.generation, false));
  }

  /**
   From an engine's paint to the screen: after a resize, the first frame the engine paints at the new
   size is taken by the next paint past the sleep guard, and once that is submitted without the
   animation it is what the page texture holds, unless the dedupe takes it for another engine's.
  */
  lemma PaintedFrameIsShown(s: State, w: nat, h: nat, f: Frame, i: PaintInput)
    requires Bounds(s) && s.page.active in s.page.frames
    requires f.generation >= s.page.frames[s.page.active].generation && f.generation != s.page.lastGen
    requires w > 0 && h > 0 && f.width == w && f.height == h && |f.pixels| == w * h * 4 && !f.needsFresh
    ensures var a := Step(s, false, TimedEvent(0, ViewResized(s.page.active, w, h)));
            var b := Step(a, false, TimedEvent(0, Produce(s.page.active, f)));
            var r := Step(b, false, TimedEvent(0, Redraw(i)));
            && (Admitted(Polled(s.sleep.(redraw := false), i.stats), s.sleep.probePending) ==>
                  && r.page.scratch == f.pixels && r.page.dims == Some((w, h)) && r.page.lastGen == f.generation
                  && (i.outcome.Yes? && !WantAnim(Some((w, h)), s.sleep.drifted, i)
                      && !Collides(s.gpu.osr, OsrUpload(f.pixels, w, h, f.generation, false)) ==>
                        Holds(r.gpu.osr, w, h, f.pixels)))
  {
    var a := Step(s, false, TimedEvent(0, ViewResized(s.page.active, w, h)));
    var b := Step(a, false, TimedEvent(0, Produce(s.page.active, f)));
    var u := b.(sleep := b.sleep.(redraw := false));
    assert u.page.frames[u.page.active] == f && u.page.views[u.page.active] == (w, h);
    assert u.sleep == s.sleep.(redraw := false) && u.gpu == s.gpu;
    PaintConsumesIff(u, i);
    hide Polled, PaintSleep, WantAnim;
    if Admitted(Polled(u.sleep, i.stats), u.sleep.probePending) && i.outcome.Yes?
       && !WantAnim(Some((w, h)), s.sleep.drifted, i) {
      FreshFrameIsShownIff(u, i);
    }
  }

  // ---- the sleep machine underneath -------------------------------------------------------------

  lemma StepKeepsSleep(s: State, t: TimedEvent)
    requires Bounds(s) && SleepInv(s.sleep)
    ensures SleepInv(Step(s, false, t).sleep)
  {
    hide SleepInv, StepSleep, PaintSleep, Polled;
    var now := s.(sleep := s.sleep.(clock := s.sleep.clock + t.dt));
    match t.event
    case ChromeChanged(c) => FrameKeepsInv(s.sleep, t.dt, s.sleep.drifted, true);
    case Resized(i) => PaintKeepsSleep(s, t);
    case Redraw(i) => PaintKeepsSleep(s, t);
    case Signal(e) =>
      FrameKeepsInv(s.sleep, t.dt, s.sleep.drifted, s.sleep.redraw);
      Occlusion.StepKeepsInv(s.sleep, Timed(t.dt, e));
    case AboutToWait =>
      var u := StepSleep(s.sleep, Timed(t.dt, Occlusion.AboutToWait));
      Occlusion.StepKeepsInv(s.sleep, Timed(t.dt, Occlusion.AboutToWait));
      FrameKeepsInv(u, 0, u.drifted, true);
    case _ => FrameKeepsInv(s.sleep, t.dt, s.sleep.drifted, s.sleep.redraw);
  }

  lemma PaintKeepsSleep(s: State, t: TimedEvent)
    requires Bounds(s) && SleepInv(s.sleep) && PaintOf(s, t).Some?
    ensures SleepInv(Step(s, false, t).sleep)
  {
    hide SleepInv, StepSleep, PaintSleep, Polled;
    PaintOfIsStep(s, false, t);
    var (u, i) := PaintOf(s, t).value;
    FrameKeepsInv(s.sleep, t.dt, u.sleep.drifted, u.sleep.redraw);
    Occlusion.PaintKeepsInv(u.sleep, i.stats, Idle);
    Occlusion.PaintKeepsInv(u.sleep, i.stats, Drew(i.outcome, i.liveDrift));
  }

  /**
   The window's signals and waits are the sleep machine's: what is proved there of reveals, hides and
   probes holds for the window, whatever else the event does.
  */
  lemma SignalsDriveSleep(s: State, dt: nat, e: Occlusion.Event)
    requires Bounds(s) && (e.Focused? || e.OccludedSignal? || e.AboutToWait?)
    ensures var t := TimedEvent(dt, if e.AboutToWait? then Event.AboutToWait else Signal(e));
            var r, v := Step(s, false, t), StepSleep(s.sleep, Timed(dt, e));
            && r.sleep == v.(redraw := r.sleep.redraw) && (v.redraw ==> r.sleep.redraw)
            && r.page == s.page && r.strips == s.strips && r.gpu == s.gpu
  {
    hide StepSleep;
    RetryTouchesNothing(s.(sleep := StepSleep(s.sleep, Timed(dt, e))));
  }

  /**
   A surface that has moved on since the frame was laid out is painted again, and the flag falls with the
   first frame that fits.
  */
  lemma DriftIsRepainted(s: State, i: PaintInput)
    requires Bounds(s) && Draws(s, i)
    ensures var r := Paint(s, false, i);
            r.sleep.drifted == i.liveDrift && (i.liveDrift ==> r.sleep.redraw)
  {
    DrawnDrift(s.sleep, i.stats, i.outcome, i.liveDrift);
    hide PaintSleep, Polled;
  }

  lemma DrawnDrift(s: Sleep, stats: Option<nat>, o: Outcome, liveDrift: bool)
    requires Admitted(Polled(s, stats), s.probePending)
    ensures var r := PaintSleep(s, stats, Drew(o, liveDrift));
            r.drifted == liveDrift && (liveDrift ==> r.redraw)
  {
    hide Polled, Observe;
  }

  /** The window's own paints drive the sleep machine as its invariants demand. */
  lemma {:induction false} RunKeepsSleep(s: State, events: seq<TimedEvent>)
    requires Bounds(s) && SleepInv(s.sleep)
    ensures var r := Run(s, false, events).sleep;
            SleepInv(r) && r.bypasses <= |r.probes|
    decreases |events|
  {
    if events != [] {
      StepKeepsSleep(s, events[0]);
      RunKeepsSleep(Step(s, false, events[0]), events[1..]);
    }
  }

  lemma InitialInvariants(s: State)
    requires Initial(s)
    ensures Bounds(s) && ChromeInv(s) && SleepInv(s.sleep)
    ensures s.page.active in s.page.frames ==> PageInv(s) && InStep(s)
  {
  }

  /**
   From the window's start on, through any run: band uploads leave what full uploads would; no more
   frames pass the sleep guard than there were probes; with one engine no generation is consumed
   twice; and if no paint leaks, skipped pixels are always on the GPU.
  */
  lemma EveryRunFromTheStart(s: State, events: seq<TimedEvent>)
    requires Initial(s)
    ensures var r := Run(s, false, events);
            && r == Run(s, true, events)
            && SleepInv(r.sleep) && r.sleep.bypasses <= |r.sleep.probes|
            && (s.page.active in s.page.frames && OneEngine(events) ==>
                  Ordered(r.page.consumed) && (NoLeak(s, events) ==> Agree(r)))
  {
    InitialInvariants(s);
    hide Initial, SleepInv, PageInv, ChromeInv, Run, NoLeak, InStep;
    BandUploadsRefineFullUploads(s, events);
    RunKeepsSleep(s, events);
    if s.page.active in s.page.frames && OneEngine(events) {
      EachGenerationConsumedOnce(s, events);
      if NoLeak(s, events) {
        SkippedPixelsAreOnTheGpu(s, events);
      }
    }
  }

  // ---- wired to the renderer --------------------------------------------------------------------

  /** One paint before the renderer has answered; `late` is a report that arrives after the paint's own poll. */
  datatype RawPaint = RawPaint(
    lw: nat, lh: nat, browserW: nat, browserH: nat, native: bool, splash: Draw,
    late: Option<Stats>, surface: Surface, liveDrift: bool)

  function WithAnswer(r: RawPaint, stats: Option<nat>, o: Outcome): PaintInput {
    PaintInput(r.lw, r.lh, r.browserW, r.browserH, r.native, r.splash, stats, o, r.liveDrift)
  }

  /** The input a paint has when the worker stands at `w`. */
  function InputOf(w: Worker, r: RawPaint): PaintInput {
    WithAnswer(r, Presents.PresentSample(Poll(w).1), Answer(Presents.Asked(w, r.late), r.surface).1)
  }

  function WorkerAfter(s: State, w: Worker, r: RawPaint): Worker {
    if Draws(s, InputOf(w, r)) then Answer(Presents.Asked(w, r.late), r.surface).0 else Poll(w).0
  }

  datatype WiredEvent =
    | Reported(stats: Stats)
    | Painted(dt: nat, resized: bool, raw: RawPaint)
    | Other(timed: TimedEvent)

  function PaintEvent(w: Worker, dt: nat, resized: bool, raw: RawPaint): TimedEvent {
    TimedEvent(dt, if resized then Event.Resized(InputOf(w, raw)) else Redraw(InputOf(w, raw)))
  }

  /** The window's own events a wired event amounts to: paints get the input the worker gives them. */
  function EventsOf(s: State, w: Worker, e: WiredEvent): seq<TimedEvent> {
    match e
    case Reported(_) => []
    case Painted(dt, resized, raw) => [PaintEvent(w, dt, resized, raw)]
    case Other(t) => if PaintOf(s, t) == None then [t] else []
  }

  function WorkerStep(s: State, w: Worker, e: WiredEvent): Worker {
    match e
    case Reported(st) => Report(w, st)
    case Painted(dt, resized, raw) => WorkerAfter(PaintOf(s, PaintEvent(w, dt, resized, raw)).value.0, w, raw)
    case Other(_) => w
  }

  function RunWired(s: State, w: Worker, events: seq<WiredEvent>): (r: (State, Worker))
    requires Bounds(s)
    ensures Bounds(r.0)
    decreases |events|
  {
    if events == [] then (s, w)
    else RunWired(Run(s, false, EventsOf(s, w, events[0])), WorkerStep(s, w, events[0]), events[1..])
  }

  function AllEvents(s: State, w: Worker, events: seq<WiredEvent>): seq<TimedEvent>
    requires Bounds(s)
    decreases |events|
  {
    if events == [] then []
    else
      var now := EventsOf(s, w, events[0]);
      now + AllEvents(Run(s, false, now), WorkerStep(s, w, events[0]), events[1..])
  }

  lemma {:induction false} RunConcat(s: State, a: seq<TimedEvent>, b: seq<TimedEvent>)
    requires Bounds(s)
    ensures Run(s, false, a + b) == Run(Run(s, false, a), false, b)
    decreases |a|
  {
    if a == [] {
      assert a + b == b;
    } else {
      assert (a + b)[0] == a[0] && (a + b)[1..] == a[1..] + b;
      RunConcat(Step(s, false, a[0]), a[1..], b);
    }
  }

  lemma WorkerStepKeepsInv(s: State, w: Worker, e: WiredEvent)
    requires WorkerInv(w)
    ensures WorkerInv(WorkerStep(s, w, e))
  {
    hide WorkerInv, Poll, Answer, Presents.Asked, Draws;
    match e
    case Reported(st) => WorkerStepsKeepInv(w, st, Refused);
    case Painted(dt, resized, raw) =>
      Presents.AskedKeepsInv(w, raw.late);
      WorkerStepsKeepInv(Presents.Asked(w, raw.late), NO_STATS, raw.surface);
    case Other(_) =>
  }

  /** Whatever the worker and the compositor do, a wired run is one of the runs above, with one frame in flight. */
  lemma {:induction false} WiredRunsAreRuns(s: State, w: Worker, events: seq<WiredEvent>)
    requires Bounds(s) && WorkerInv(w)
    ensures var (r, v) := RunWired(s, w, events);
            r == Run(s, false, AllEvents(s, w, events)) && WorkerInv(v)
    decreases |events|
  {
    if events != [] {
      var now := EventsOf(s, w, events[0]);
      WorkerStepKeepsInv(s, w, events[0]);
      var t, v := Run(s, false, now), WorkerStep(s, w, events[0]);
      WiredRunsAreRuns(t, v, events[1..]);
      RunConcat(s, now, AllEvents(t, v, events[1..]));
    }
  }

  /** What a paint's body does, as the sleep machine and the worker see it. */
  function BodyOf(s: State, w: Worker, raw: RawPaint): Presents.Body {
    if ShortCircuits(s.strips, Fresh(s.page), WantAnim(Take(s.page).dims, s.sleep.drifted, InputOf(w, raw)))
    then Presents.Nothing
    else Presents.Frame(raw.late, raw.surface, raw.liveDrift)
  }

  /** A wired paint moves sleep machine and worker as `Presents` says, so what a probe learns is settled there. */
  lemma WiredPaintIsPresents(s: State, w: Worker, raw: RawPaint)
    requires Bounds(s)
    ensures Presents.Sleeper(Paint(s, false, InputOf(w, raw)).sleep, WorkerAfter(s, w, raw))
            == Presents.PaintBoth(Presents.Sleeper(s.sleep, w), BodyOf(s, w, raw))
  {
    hide DrawFrame, Polled, DrawnSleep, Rearmed, Poll, Answer, Presents.Asked;
  }

  // ---- in place ---------------------------------------------------------------------------------

  class Window {
    const sleep: SleepMachine
    const renderer: Renderer
    var engines: map<nat, Frame>
    var osrViews: map<nat, (nat, nat)>
    var activeEngine: nat
    var osrScratch: seq<Byte>
    var lastOsrGeneration: nat
    var lastOsrDims: Option<(nat, nat)>
    var osrGpuStale: bool
    ghost var consumed: seq<(nat, nat)>
    var chrome: Chrome
    var chromeGeneration: nat
    var lastPaintedChromeGen: nat
    var chromeMiddleOnGpu: bool
    var loadingAnimActive: bool
    ghost var lastChrome: Chrome
    ghost var lastSplash: Option<Draw>
    var repaintRetryAt: Option<nat>

    ghost function PageModel(): Page
      reads this
    {
      Page(engines, osrViews, activeEngine, osrScratch, lastOsrGeneration, lastOsrDims, osrGpuStale, consumed)
    }

    ghost function StripsModel(): Strips
      reads this
    {
      Strips(chrome, chromeGeneration, lastPaintedChromeGen, chromeMiddleOnGpu, loadingAnimActive,
             lastChrome, lastSplash)
    }

    ghost function Model(): State
      reads this, sleep, renderer
    {
      State(PageModel(), StripsModel(), sleep.Model(), renderer.gpu, repaintRetryAt)
    }

    constructor (sleep: SleepMachine, renderer: Renderer, engines: map<nat, Frame>,
                 osrViews: map<nat, (nat, nat)>, activeEngine: nat, chrome: Chrome)
      requires sleep.Model() == Awake() && GpuValid(renderer.gpu) && renderer.gpu.osr == Unallocated
      requires renderer.gpu.chrome == Blank(renderer.gpu.chromeLw, renderer.gpu.chromeLh)
      ensures Initial(Model()) && engines == this.engines && activeEngine == this.activeEngine
    {
      this.sleep, this.renderer := sleep, renderer;
      this.engines, this.osrViews, this.activeEngine := engines, osrViews, activeEngine;
      osrScratch, lastOsrGeneration, lastOsrDims, osrGpuStale, consumed := [], 0, None, false, [];
      this.chrome, chromeGeneration, lastPaintedChromeGen := chrome, 1, 0;
      chromeMiddleOnGpu, loadingAnimActive, repaintRetryAt := false, false, None;
      lastChrome, lastSplash := chrome, None;
    }

    /** The swap under the frame lock; the result carries the consumed dimensions and generation. */
    method AcquireFrame() returns (osrMeta: Option<(nat, nat, nat)>)
      modifies this
      ensures var was := old(PageModel());
              && PageModel() == Take(was) && StripsModel() == old(StripsModel())
              && repaintRetryAt == old(repaintRetryAt)
              && (osrMeta.Some? <==> Fresh(was))
              && (osrMeta.Some? ==>
                    lastOsrDims == Some((osrMeta.value.0, osrMeta.value.1))
                    && osrMeta.value.2 == TakenGeneration(was))
    {
      osrMeta := None;
      if activeEngine in engines && activeEngine in osrViews {
        var frame := engines[activeEngine];
        if IsFresh(frame, lastOsrGeneration, osrViews[activeEngine].0, osrViews[activeEngine].1) {
          lastOsrDims := Some((frame.width, frame.height));
          var handedBack := osrScratch;
          osrScratch := frame.pixels;
          engines := engines[activeEngine := frame.(pixels := handedBack)];
          osrMeta := Some((frame.width, frame.height, frame.generation));
          consumed := consumed + [(activeEngine, frame.generation)];
        }
      }
    }

    /** The four paint paths: what this frame uploads for the page, and the generation it stands for. */
    method BuildUpload(path: PaintPath, osrMeta: Option<(nat, nat, nat)>)
      returns (upload: Option<OsrUpload>, newGeneration: nat)
      requires path.FreshOsr? ==> osrMeta.Some?
      requires path.SyntheticScratch? ==> lastOsrDims.Some? && osrMeta == None
      requires path.DeadFallback? ==> osrMeta == None
      requires osrMeta.Some? ==> lastOsrDims == Some((osrMeta.value.0, osrMeta.value.1))
      ensures newGeneration == if osrMeta.Some? then osrMeta.value.2 else lastOsrGeneration
      ensures upload == PageUpload(PageModel(), path, newGeneration)
    {
      match path {
        case Animation =>
          newGeneration := if osrMeta.Some? then osrMeta.value.2 else lastOsrGeneration;
          upload := None;
        case FreshOsr =>
          newGeneration := osrMeta.value.2;
          upload := Some(OsrUpload(osrScratch, osrMeta.value.0, osrMeta.value.1, newGeneration, false));
        case SyntheticScratch =>
          newGeneration := lastOsrGeneration;
          upload := Some(OsrUpload(osrScratch, lastOsrDims.value.0, lastOsrDims.value.1, newGeneration, !osrGpuStale));
        case DeadFallback =>
          newGeneration := lastOsrGeneration;
          upload := None;
      }
    }

    /** The chrome half of the command: which rows travel, and the repainted buffer if the chrome is dirty. */
    method BuildCommand(wantAnim: bool, i: RawPaint, upload: Option<OsrUpload>)
      returns (command: Command, dirty: bool, middle: bool)
      ensures command == ChromeCommand(StripsModel(), wantAnim, false, WithAnswer(i, None, No), upload)
      ensures dirty == ChromeDirtyEffective(StripsModel(), wantAnim)
      ensures middle == MiddlePainted(StripsModel(), wantAnim)
    {
      var animJustDeactivated := loadingAnimActive && !wantAnim;
      dirty := chromeGeneration != lastPaintedChromeGen || wantAnim || animJustDeactivated;
      var overlay := dirty && chrome.overlay;
      middle := wantAnim || overlay;
      var top, bottom := TAB_STRIP_HEIGHT + DOWNLOAD_NOTICE_HEIGHT, STATUSLINE_HEIGHT;
      if middle || chromeMiddleOnGpu {
        top, bottom := i.lh, 0;
      }
      var pixels: Option<seq<Pixel>> := None;
      if dirty {
        pixels := Some(ChromeBuffer(chrome, if wantAnim then Some(i.splash) else None, i.lw, i.lh));
      }
      command := Command(i.lw, i.lh, top, bottom, pixels, upload);
    }

    /** What the frame means for the page: the consumed generation, and whether its pixels arrived. */
    method SettlePage(path: PaintPath, newGeneration: nat, outcome: Outcome)
      modifies this`lastOsrGeneration, this`osrGpuStale
      ensures PageModel() == CommitPage(old(PageModel()), path, newGeneration, outcome)
    {
      lastOsrGeneration := newGeneration;
      if path.FreshOsr? || path.SyntheticScratch? {
        osrGpuStale := !outcome.Yes?;
      }
    }

    /** What the frame means for the chrome: only a submitted frame retires its dirty state. */
    method SettleStrips(wantAnim: bool, dirty: bool, middle: bool, i: PaintInput)
      requires dirty == ChromeDirtyEffective(StripsModel(), wantAnim)
      requires middle == MiddlePainted(StripsModel(), wantAnim)
      modifies this`loadingAnimActive, this`lastPaintedChromeGen, this`chromeMiddleOnGpu
      modifies this`lastChrome, this`lastSplash
      ensures StripsModel() == CommitStrips(old(StripsModel()), wantAnim, i)
    {
      loadingAnimActive := wantAnim;
      if DecideFrameCommit(i.outcome, dirty).advanceChromeGen {
        lastPaintedChromeGen := chromeGeneration;
        chromeMiddleOnGpu := middle;
        lastChrome, lastSplash := chrome, SplashOf(wantAnim, i);
      }
    }

    /** Both, and the retry of a skipped frame. */
    method Settle(path: PaintPath, newGeneration: nat, wantAnim: bool, dirty: bool, middle: bool, i: PaintInput)
      requires dirty == ChromeDirtyEffective(StripsModel(), wantAnim)
      requires middle == MiddlePainted(StripsModel(), wantAnim)
      modifies this
      ensures Model() == old(Model()).(
        page := CommitPage(old(PageModel()), path, newGeneration, i.outcome),
        strips := CommitStrips(old(StripsModel()), wantAnim, i),
        retryAt := if i.outcome.No? then Some(sleep.clock + SKIPPED_FRAME_RETRY_DELAY) else None)
    {
      SettlePage(path, newGeneration, i.outcome);
      SettleStrips(wantAnim, dirty, middle, i);
      repaintRetryAt := if i.outcome.No? then Some(sleep.clock + SKIPPED_FRAME_RETRY_DELAY) else None;
    }

    /** Build the command, hand it to the renderer, and settle what its answer allows. */
    method DrawInPlace(osrMeta: Option<(nat, nat, nat)>, wantAnim: bool, raw: RawPaint, stats: Option<nat>)
      returns (outcome: Outcome)
      requires Bounds(Model())
      requires osrMeta.Some? ==> lastOsrDims == Some((osrMeta.value.0, osrMeta.value.1))
      modifies this, renderer
      ensures (renderer.WorkerModel(), outcome) == Answer(old(renderer.WorkerModel()), raw.surface)
      ensures Model() == DrawFrame(old(Model()), osrMeta.Some?,
                                   if osrMeta.Some? then osrMeta.value.2 else old(lastOsrGeneration),
                                   wantAnim, false, WithAnswer(raw, stats, outcome))
    {
      hide Execute, Answer, ChromeCommand, CommitPage, CommitStrips;
      var path := DecidePaintPath(wantAnim, osrMeta.Some?, lastOsrDims);
      var upload, newGeneration := BuildUpload(path, osrMeta);
      var command, dirty, middle := BuildCommand(wantAnim, raw, upload);
      CommandIgnoresAnswer(StripsModel(), wantAnim, raw, stats, upload);
      outcome := renderer.Frame(command, raw.surface);
      Settle(path, newGeneration, wantAnim, dirty, middle, WithAnswer(raw, stats, outcome));
    }

    /** Past the sleep guard: swap, decide, draw, commit. `inner` says whether a frame was drawn. */
    method PaintBodyInPlace(raw: RawPaint, stats: Option<nat>, ghost w: Worker) returns (inner: Inner)
      requires Bounds(Model()) && renderer.WorkerModel() == Poll(w).0
      requires stats == Presents.PresentSample(Poll(w).1)
      requires raw.late.Some? ==> |renderer.reports| < renderer.submitted
      modifies this, renderer
      ensures (Model(), inner) == PaintBody(old(Model()), false, InputOf(w, raw))
      ensures renderer.WorkerModel()
              == if inner.Drew? then Answer(Presents.Asked(w, raw.late), raw.surface).0 else Poll(w).0
    {
      hide DrawFrame, Answer, Poll, Fresh, Take, TakenGeneration, ShouldShowLoadingAnim, Report;
      ghost var was := Model();
      TakenBounds(was);
      var osrMeta := AcquireFrame();
      assert Model() == was.(page := Take(was.page));
      var wantAnim := WantAnim(lastOsrDims, sleep.surfaceDrifted, WithAnswer(raw, None, No));
      assert wantAnim == WantAnim(Take(was.page).dims, was.sleep.drifted, InputOf(w, raw));
      hide WantAnim, Bounds;
      var chromeDirty := chromeGeneration != lastPaintedChromeGen;
      if !chromeDirty && osrMeta == None && !wantAnim && wantAnim == loadingAnimActive {
        return Inner.Idle;
      }
      if raw.late.Some? {
        renderer.SendReport(raw.late.value);
      }
      var outcome := DrawInPlace(osrMeta, wantAnim, raw, stats);
      inner := Drew(outcome, raw.liveDrift);
    }

    /** `paint_chrome_with`: the wake-probe lifecycle around one paint, with the answers of the real renderer. */
    method PaintChromeWith(raw: RawPaint)
      requires Bounds(Model())
      requires raw.late.Some? ==> |renderer.reports| < renderer.submitted
      modifies this, sleep, renderer
      ensures var w := old(renderer.WorkerModel());
              && Model() == Paint(old(Model()), false, InputOf(w, raw))
              && renderer.WorkerModel() == WorkerAfter(old(Model()), w, raw)
    {
      hide Polled, Rearmed, PaintBody, Observe, Poll, Answer, Presents.Asked;
      ghost var was, w := Model(), renderer.WorkerModel();
      ghost var i := InputOf(w, raw);
      var polled := renderer.PollPresentStats();
      var stats := Presents.PresentSample(polled);
      var probe, admitted := sleep.BeginPaint(stats);
      assert sleep.Model() == Polled(was.sleep, i.stats);
      if admitted {
        PollKeepsDriftAndClock(was.sleep, i.stats);
        BodyIgnoresRest(was, Model(), i);
        BodyDrawsIff(was, i);
        var inner := PaintBodyInPlace(raw, stats, w);
        if inner.Drew? {
          sleep.FinishDraw(inner.outcome, inner.liveDrift);
        }
        sleep.EndPaint(probe, inner.Drew? && inner.outcome.Yes?);
      } else {
        sleep.EndPaint(probe, false);
      }
    }

    method MarkChromeDirtyInPlace()
      modifies this`chromeGeneration
      ensures StripsModel() == MarkChromeDirty(old(StripsModel()), chrome)
    {
      chromeGeneration := chromeGeneration + 1;
    }

    /** The `Resized` arm: dirty chrome, the drift flag that opens the sleep guard, and a synchronous paint. */
    method OnResized(dt: nat, raw: RawPaint)
      requires Bounds(Model())
      requires raw.late.Some? ==> |renderer.reports| < renderer.submitted
      modifies this, sleep, renderer
      ensures var w := old(renderer.WorkerModel());
              && Model() == Step(old(Model()), false, PaintEvent(w, dt, true, raw))
              && renderer.WorkerModel() == WorkerStep(old(Model()), w, Painted(dt, true, raw))
    {
      hide Paint, InputOf, Draws, Poll, Answer;
      sleep.clock := sleep.clock + dt;
      MarkChromeDirtyInPlace();
      sleep.surfaceDrifted := true;
      PaintChromeWith(raw);
    }

    /** `osr_resize` of one engine. */
    method OsrResize(e: nat, w: nat, h: nat)
      modifies this`engines, this`osrViews
      ensures PageModel() == ResizeView(old(PageModel()), e, w, h)
    {
      osrViews := osrViews[e := (w, h)];
      if e in engines {
        engines := engines[e := engines[e].(needsFresh := true)];
      }
    }

    /** The skipped-frame retry of `about_to_wait`. */
    method ServeRetry()
      modifies this`repaintRetryAt, sleep`redrawRequested
      ensures Model() == RetryTick(old(Model()))
    {
      if repaintRetryAt.Some? && sleep.clock >= repaintRetryAt.value {
        repaintRetryAt := None;
        sleep.redrawRequested := true;
      }
    }

    method OnTabSwitch()
      modifies this
      ensures PageModel() == SwitchTab(old(PageModel())) && StripsModel() == old(StripsModel())
      ensures repaintRetryAt == old(repaintRetryAt)
    {
      lastOsrDims := None;
      lastOsrGeneration := if activeEngine in engines then engines[activeEngine].generation else 0;
    }
  }

  lemma PollKeepsDriftAndClock(s: Sleep, stats: Option<nat>)
    ensures Polled(s, stats).drifted == s.drifted && Polled(s, stats).clock == s.clock
  {
  }

  /** The command is the same whatever the renderer will answer. */
  lemma CommandIgnoresAnswer(t: Strips, wantAnim: bool, r: RawPaint, stats: Option<nat>, upload: Option<OsrUpload>)
    ensures forall o :: ChromeCommand(t, wantAnim, false, WithAnswer(r, stats, o), upload)
                        == ChromeCommand(t, wantAnim, false, WithAnswer(r, None, No), upload)
    ensures var c := ChromeCommand(t, wantAnim, false, WithAnswer(r, None, No), upload);
            (upload.Some? ==> InBounds(upload.value)) ==> CommandValid(c)
  {
  }

  lemma TakenBounds(s: State)
    requires Bounds(s)
    ensures Bounds(s.(page := Take(s.page)))
    ensures Fresh(s.page) ==> Take(s.page).dims.Some?
    ensures !Fresh(s.page) ==> Take(s.page) == s.page && TakenGeneration(s.page) == s.page.lastGen
    ensures Take(s.page).lastGen == s.page.lastGen
  {
  }

  lemma BodyDrawsIff(s: State, i: PaintInput)
    requires Bounds(s) && Admitted(Polled(s.sleep, i.stats), s.sleep.probePending)
    ensures PaintBody(s, false, i).1.Drew? <==> Draws(s, i)
  {
    hide DrawFrame, Polled;
  }

  /** The body of a paint looks at no more of the sleep machine than the drift flag and the clock. */
  lemma BodyIgnoresRest(s: State, t: State, i: PaintInput)
    requires Bounds(s) && t == s.(sleep := t.sleep)
    requires t.sleep.drifted == s.sleep.drifted && t.sleep.clock == s.sleep.clock
    ensures Bounds(t)
    ensures var (r, inner) := PaintBody(s, false, i);
            PaintBody(t, false, i) == (r.(sleep := t.sleep), inner)
  {
  }
}
