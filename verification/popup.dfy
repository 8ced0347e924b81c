/**
 Painting a popup window: the swap with the shared frame, the synthetic re-send of the last
 picture, and the caches (`osr_scratch`, `last_osr_dims`, `last_osr_generation`,
 `osr_gpu_stale`, the chrome generations) that let most frames carry no pixels.

 The window is specified by a step function on values; the class below implements it in
 place over a shared frame and a renderer. The main results compare any run with a reference
 window that has none of the caches and uploads everything it shows.
*/
module Popup {
  import opened Options
  import opened Osr
  import opened Gpu

  /** What the address bar draws into an `lw` by `lh` chrome buffer, cell by cell. */
  type Bar = (nat, nat, nat) -> Pixel

  const BAR_H: nat := 30

  datatype State = State(
    frame: Frame, viewW: nat, viewH: nat,
    scratch: seq<Byte>, lastGen: nat, dims: Option<(nat, nat)>, stale: bool,
    bar: Bar, chromeGen: nat, paintedGen: nat,
    retryAt: Option<nat>, redraw: bool,
    gpu: Gpu,
    // the two fields below only record the run
    lastErr: bool, consumed: seq<nat>)

  /** One paint: the logical size it happens at, what the renderer did with it, and the time. */
  datatype PaintInput = PaintInput(lw: nat, lh: nat, outcome: Outcome, now: nat)

  datatype RawEvent =
    | CefPaint(w: int, h: int, src: seq<Byte>)
    | PopupResize(viewW: nat, viewH: nat)
    | UrlChanged(bar: Bar)
    | WindowResized(p: PaintInput)
    | Redraw(p: PaintInput)
    | Tick(now: nat)

  /** CEF's buffer holds as many bytes as its dimensions say. */
  type Event = e: RawEvent | e.CefPaint? && e.w > 0 && e.h > 0 ==> |e.src| == ByteLen(e.w, e.h)
    witness Tick(0)

  /** `paint_popup_chrome`: the bar's rows, or nothing when the window is shorter than the bar. */
  function PopupChrome(bar: Bar, lw: nat, lh: nat): (r: seq<Pixel>)
    ensures |r| == lh * lw
  {
    seq(lh * lw, k requires 0 <= k => if BAR_H <= lh && k < BAR_H * lw then bar(lw, lh, k) else 0)
  }

  // ---- the step function ------------------------------------------------------------------------

  /** No arm can claim more bytes than its buffer holds. */
  predicate Bounds(s: State) {
    && (s.dims.Some? ==>
          s.dims.value.0 > 0 && s.dims.value.1 > 0 && |s.scratch| == ByteLen(s.dims.value.0, s.dims.value.1))
    && GpuValid(s.gpu)
  }

  /** Whether the freshness gate accepts the shared frame. */
  predicate Fresh(s: State) {
    IsFresh(s.frame, s.lastGen, s.viewW, s.viewH)
  }

  /** The swap under the frame lock; the identity when the gate rejects the frame. */
  function Consume(s: State): State {
    if Fresh(s) then
      s.(dims := Some((s.frame.width, s.frame.height)),
         scratch := s.frame.pixels,
         frame := s.frame.(pixels := s.scratch),
         lastGen := s.frame.generation,
         consumed := s.consumed + [s.frame.generation])
    else s
  }

  /** The upload of the frame: fresh pixels, a re-send of the scratch buffer, or none yet. */
  function Upload(s: State, took: bool): Option<OsrUpload> {
    if s.dims.Some? then
      Some(OsrUpload(s.scratch, s.dims.value.0, s.dims.value.1, s.lastGen, !took && !s.stale))
    else None
  }

  function PopupCommand(s: State, took: bool, p: PaintInput): Command {
    var dirty := s.chromeGen != s.paintedGen;
    Command(p.lw, p.lh, BAR_H, 0,
            if dirty then Some(PopupChrome(s.bar, p.lw, p.lh)) else None,
            Upload(s, took))
  }

  /** `paint_popup_window`. */
  function Paint(s: State, p: PaintInput): (r: State)
    requires Bounds(s)
    ensures Bounds(r)
  {
    Commit(Consume(s), Fresh(s), p)
  }

  /** The frame and its bookkeeping, once the shared frame has been looked at. */
  function Commit(c: State, took: bool, p: PaintInput): (r: State)
    requires Bounds(c)
    ensures Bounds(r)
  {
    var dirty := c.chromeGen != c.paintedGen;
    var commit := DecideFrameCommit(p.outcome, dirty);
    c.(stale := if c.dims.Some? then !p.outcome.Yes? else c.stale,
       paintedGen := if commit.advanceChromeGen then c.chromeGen else c.paintedGen,
       retryAt := if commit.retryPaint then Some(p.now + SKIPPED_FRAME_RETRY_DELAY) else None,
       redraw := false,
       gpu := if p.outcome.Yes? then Execute(c.gpu, PopupCommand(c, took, p)) else c.gpu,
       lastErr := p.outcome.Err?)
  }

  function Step(s: State, e: Event): (r: State)
    requires Bounds(s)
    ensures Bounds(r)
  {
    match e
    case CefPaint(w, h, src) =>
      if w <= 0 || h <= 0 then s
      else s.(frame := Painted(s.frame, w, h, src), redraw := true)
    case PopupResize(w, h) => s.(viewW := w, viewH := h)
    case UrlChanged(bar) => s.(bar := bar, chromeGen := s.chromeGen + 1, redraw := true)
    case WindowResized(p) => Paint(s.(chromeGen := s.chromeGen + 1), p)
    case Redraw(p) => Paint(s, p)
    case Tick(now) =>
      if s.retryAt.Some? && now >= s.retryAt.value then s.(retryAt := None, redraw := true) else s
  }

  function Run(s: State, events: seq<Event>): (r: State)
    requires Bounds(s)
    ensures Bounds(r)
    decreases |events|
  {
    if events == [] then s else Run(Step(s, events[0]), events[1..])
  }

  /** A popup as it is created around an engine's frame. */
  predicate Initial(s: State) {
    && s.scratch == [] && s.lastGen == 0 && s.dims == None && !s.stale
    && s.chromeGen == 1 && s.paintedGen == 0
    && s.retryAt == None && !s.lastErr && s.consumed == []
    && s.gpu.osr == Unallocated && GpuValid(s.gpu)
    && s.gpu.chrome == Blank(s.gpu.chromeLw, s.gpu.chromeLh)
  }

  // ---- invariant --------------------------------------------------------------------------------

  /** The worker's texture never runs ahead, and what it holds of the current generation is the scratch buffer. */
  predicate TextureInv(s: State) {
    s.gpu.osr.Texture? ==>
      && s.gpu.osr.lastGeneration.Some?
      && s.gpu.osr.lastGeneration.value <= s.lastGen
      && (s.gpu.osr.lastGeneration.value == s.lastGen ==>
            s.dims.Some? && Holds(s.gpu.osr, s.dims.value.0, s.dims.value.1, s.scratch))
  }

  /** A frame that may skip its pixels finds exactly the scratch buffer on the GPU. */
  predicate Agree(s: State) {
    s.dims.Some? && !s.stale ==> Holds(s.gpu.osr, s.dims.value.0, s.dims.value.1, s.scratch)
  }

  /** `Agree` as the caches know it: the generation on the texture is the current one. */
  predicate InStep(s: State) {
    s.dims.Some? && !s.stale ==> s.gpu.osr.Texture? && s.gpu.osr.lastGeneration == Some(s.lastGen)
  }

  predicate StrictlyIncreasing(g: seq<nat>) {
    forall i, j :: 0 <= i < j < |g| ==> g[i] < g[j]
  }

  predicate ConsumedInv(s: State) {
    && StrictlyIncreasing(s.consumed)
    && s.lastGen <= s.frame.generation
    && (forall i :: 0 <= i < |s.consumed| ==> s.consumed[i] <= s.lastGen)
    && (s.dims.Some? <==> s.consumed != [])
    && (s.dims == None ==> !s.stale && s.gpu.osr == Unallocated)
  }

  /** Pixels that never reached the GPU are owed a paint, unless the renderer failed outright. */
  predicate StaleIsOwed(s: State) {
    s.stale ==> s.retryAt.Some? || s.redraw || s.lastErr
  }

  /** The bar on the GPU is a whole painting of the current bar, or a new texture not yet painted. */
  predicate ChromeInv(s: State) {
    && s.paintedGen <= s.chromeGen
    && (s.paintedGen == s.chromeGen ==>
          s.gpu.chrome == PopupChrome(s.bar, s.gpu.chromeLw, s.gpu.chromeLh)
          || s.gpu.chrome == Blank(s.gpu.chromeLw, s.gpu.chromeLh))
    && NothingBelowBar(s.gpu)
  }

  predicate NothingBelowBar(g: Gpu) {
    forall k :: 0 <= k < |g.chrome| ==> (!InBands(g.chromeLw, g.chromeLh, BAR_H, 0, k) ==> g.chrome[k] == 0)
  }

  predicate Inv(s: State) {
    Bounds(s) && TextureInv(s) && InStep(s) && ConsumedInv(s) && StaleIsOwed(s) && ChromeInv(s)
  }

  lemma InitialInv(s: State)
    requires Initial(s)
    ensures Inv(s)
  {
  }

  // ---- one paint --------------------------------------------------------------------------------

  /** The band upload of a freshly painted bar is a full upload of it: the rest is transparent already. */
  lemma BarUploadIsFull(s: State, lw: nat, lh: nat)
    requires Inv(s)
    ensures var tex := SizedChrome(s.gpu, lw, lh);
            WriteChrome(tex, PopupChrome(s.bar, lw, lh), lw, lh, BAR_H, 0) == PopupChrome(s.bar, lw, lh)
  {
    var tex, buf := SizedChrome(s.gpu, lw, lh), PopupChrome(s.bar, lw, lh);
    WriteChromeCells(tex, buf, lw, lh, BAR_H, 0);
    forall k | 0 <= k < |buf| && !InBands(lw, lh, BAR_H, 0, k)
      ensures tex[k] == 0 && buf[k] == 0
    {
      RowsInside(lw, Min(BAR_H, lh), lh);
    }
  }

  lemma BarStaysInItsRows(bar: Bar, lw: nat, lh: nat)
    ensures NothingBelowBar(Gpu(Unallocated, lw, lh, PopupChrome(bar, lw, lh)))
  {
    RowsInside(lw, Min(BAR_H, lh), lh);
  }

  /** The swap keeps every invariant except that the new picture still has to reach the GPU. */
  lemma ConsumeKeeps(s: State)
    requires Inv(s)
    ensures var c := Consume(s);
            && Bounds(c) && TextureInv(c) && ConsumedInv(c.(stale := c.dims.Some? && c.stale))
            && (!Fresh(s) ==> c == s)
            && (Fresh(s) ==> c.gpu.osr.Texture? ==> c.gpu.osr.lastGeneration != Some(c.lastGen))
  {
  }

  /** What a submitted frame leaves on the page texture: exactly the scratch buffer. */
  lemma SubmittedShowsScratch(s: State, p: PaintInput)
    requires Inv(s) && p.outcome.Yes? && Consume(s).dims.Some?
    ensures var r := Paint(s, p);
            && r.dims.Some?
            && Holds(r.gpu.osr, r.dims.value.0, r.dims.value.1, r.scratch)
            && r.gpu.osr.lastGeneration == Some(r.lastGen)
  {
    var c := Consume(s);
    ConsumeKeeps(s);
    var u := Upload(c, Fresh(s)).value;
    if !u.skipPixels {
      RealUploadHoldsIff(c.gpu.osr, u);
    }
  }

  /** A whole frame of the size the view asks for, waiting for no resize, that was not the last one consumed. */
  predicate Unseen(f: Frame, viewW: nat, viewH: nat, lastGen: nat) {
    && !f.needsFresh && f.width > 0 && f.height > 0 && f.width == viewW && f.height == viewH
    && |f.pixels| == f.width * f.height * 4 && f.generation != lastGen
  }

  /** What a paint consumes, whatever becomes of its frame: exactly an unseen one, and of any other nothing is taken. */
  lemma PaintConsumesIff(s: State, p: PaintInput)
    requires Bounds(s)
    ensures var r := Paint(s, p);
            if Unseen(s.frame, s.viewW, s.viewH, s.lastGen) then
              && r.consumed == s.consumed + [s.frame.generation] && r.lastGen == s.frame.generation
              && r.scratch == s.frame.pixels && r.dims == Some((s.frame.width, s.frame.height))
              && r.frame == s.frame.(pixels := s.scratch)
            else
              && r.consumed == s.consumed && r.lastGen == s.lastGen
              && r.scratch == s.scratch && r.dims == s.dims && r.frame == s.frame
  {
    hide DecideFrameCommit, Execute;
  }

  /**
   A popup's resize does not ask for a fresh paint, as the main window's does: an old frame is taken as
   soon as the view is back at its size, however often it was resized in between, exactly if it would
   have been taken had the view never changed.
  */
  lemma ResizedPopupTakesOldFrameIff(s: State, resizes: seq<Event>, p: PaintInput)
    requires Bounds(s) && forall j :: 0 <= j < |resizes| ==> resizes[j].PopupResize?
    ensures var a := Run(s, resizes);
            && a == s.(viewW := a.viewW, viewH := a.viewH)
            && (Paint(a, p).consumed != s.consumed <==> Unseen(s.frame, a.viewW, a.viewH, s.lastGen))
  {
    ResizesKeepFrame(s, resizes);
    PaintConsumesIff(Run(s, resizes), p);
  }

  lemma {:induction false} ResizesKeepFrame(s: State, resizes: seq<Event>)
    requires Bounds(s) && forall j :: 0 <= j < |resizes| ==> resizes[j].PopupResize?
    ensures var a := Run(s, resizes);
            a == s.(viewW := a.viewW, viewH := a.viewH)
            && (resizes != [] ==> a.viewW == resizes[|resizes| - 1].viewW && a.viewH == resizes[|resizes| - 1].viewH)
    decreases |resizes|
  {
    if resizes != [] {
      ResizesKeepFrame(Step(s, resizes[0]), resizes[1..]);
    }
  }

  lemma PaintKeepsInv(s: State, p: PaintInput)
    requires Inv(s)
    ensures Inv(Paint(s, p))
  {
    ConsumeKeeps(s);
    PaintKeepsChrome(s, p);
    if p.outcome.Yes? && Consume(s).dims.Some? {
      SubmittedShowsScratch(s, p);
    }
    hide ChromeInv, PopupChrome, WriteChrome;
  }

  lemma PaintKeepsChrome(s: State, p: PaintInput)
    requires Inv(s)
    ensures ChromeInv(Paint(s, p))
  {
    if p.outcome.Yes? {
      BarUploadIsFull(s, p.lw, p.lh);
      BarStaysInItsRows(s.bar, p.lw, p.lh);
      assert NothingBelowBar(Paint(s, p).gpu);
    }
    hide TextureInv, InStep, ConsumedInv, StaleIsOwed, WriteOsr;
  }

  /** Marking the window dirty, whatever the bar now draws. */
  lemma MarkDirtyKeepsInv(s: State, bar: Bar, redraw: bool)
    requires Inv(s) && (s.redraw ==> redraw)
    ensures Inv(s.(bar := bar, chromeGen := s.chromeGen + 1, redraw := redraw))
  {
  }

  lemma CefPaintKeepsInv(s: State, w: nat, h: nat, src: seq<Byte>)
    requires Inv(s)
    ensures Inv(s.(frame := Painted(s.frame, w, h, src), redraw := true))
  {
  }

  lemma ResizedKeepsInv(s: State, p: PaintInput)
    requires Inv(s)
    ensures Inv(Paint(s.(chromeGen := s.chromeGen + 1), p))
  {
    MarkDirtyKeepsInv(s, s.bar, s.redraw);
    PaintKeepsInv(s.(chromeGen := s.chromeGen + 1), p);
  }

  lemma QuietStepKeepsInv(s: State, e: Event)
    requires Inv(s) && (e.PopupResize? || e.Tick?)
    ensures Inv(Step(s, e))
  {
  }

  lemma StepKeepsInv(s: State, e: Event)
    requires Inv(s)
    ensures Inv(Step(s, e))
  {
    hide Inv;
    match e
    case CefPaint(w, h, src) =>
      if w > 0 && h > 0 {
        CefPaintKeepsInv(s, w, h, src);
      }
    case UrlChanged(bar) => MarkDirtyKeepsInv(s, bar, true);
    case WindowResized(p) => ResizedKeepsInv(s, p);
    case Redraw(p) => PaintKeepsInv(s, p);
    case _ => QuietStepKeepsInv(s, e);
  }

  // ---- every run --------------------------------------------------------------------------------

  /**
   In every reachable state: no upload overruns its buffer; a frame that skips its pixels finds
   exactly `osr_scratch` on the GPU; each generation was consumed at most once, in increasing
   order; and a stale GPU has a retry armed, a redraw requested, or an errored last frame.
  */
  lemma {:induction false} RunKeepsInv(s: State, events: seq<Event>)
    requires Inv(s)
    ensures var r := Run(s, events);
            Inv(r) && Agree(r) && StaleIsOwed(r) && StrictlyIncreasing(r.consumed)
    decreases |events|
  {
    if events != [] {
      StepKeepsInv(s, events[0]);
      RunKeepsInv(Step(s, events[0]), events[1..]);
    }
  }

  // ---- the reference window ---------------------------------------------------------------------

  datatype Picture = Picture(width: nat, height: nat, texels: seq<Byte>)

  /** A window with no stale flag, no dedupe and no skipped pixels: each submitted frame uploads all it shows. */
  datatype Reference = Reference(
    frame: Frame, viewW: nat, viewH: nat,
    scratch: seq<Byte>, lastGen: nat, dims: Option<(nat, nat)>, picture: Option<Picture>)

  function ReferencePaint(r: Reference, submitted: bool): Reference {
    var took := IsFresh(r.frame, r.lastGen, r.viewW, r.viewH);
    var c := if took then
               r.(dims := Some((r.frame.width, r.frame.height)), scratch := r.frame.pixels,
                  frame := r.frame.(pixels := r.scratch), lastGen := r.frame.generation)
             else r;
    if submitted && c.dims.Some?
    then c.(picture := Some(Picture(c.dims.value.0, c.dims.value.1, c.scratch)))
    else c
  }

  function ReferenceStep(r: Reference, e: Event): Reference {
    match e
    case CefPaint(w, h, src) =>
      if w <= 0 || h <= 0 then r else r.(frame := Painted(r.frame, w, h, src))
    case PopupResize(w, h) => r.(viewW := w, viewH := h)
    case WindowResized(p) => ReferencePaint(r, p.outcome.Yes?)
    case Redraw(p) => ReferencePaint(r, p.outcome.Yes?)
    case _ => r
  }

  function ReferenceRun(r: Reference, events: seq<Event>): Reference
    decreases |events|
  {
    if events == [] then r else ReferenceRun(ReferenceStep(r, events[0]), events[1..])
  }

  /** What the reference sees of a window. */
  function Shown(s: State): Reference {
    Reference(s.frame, s.viewW, s.viewH, s.scratch, s.lastGen, s.dims,
              if s.gpu.osr.Texture?
              then Some(Picture(s.gpu.osr.width, s.gpu.osr.height, s.gpu.osr.texels)) else None)
  }

  /**
   What CEF paints at the size of the view is on the GPU after the redraw it asks for, once that is
   submitted; a paint with a non-positive side is dropped whole.
  */
  lemma CefPaintIsShown(s: State, w: int, h: int, src: seq<Byte>, p: PaintInput)
    requires Inv(s) && (w > 0 && h > 0 ==> |src| == ByteLen(w, h))
    ensures var a := Step(s, CefPaint(w, h, src));
            && (w <= 0 || h <= 0 ==> a == s)
            && (w > 0 && h > 0 ==> a.redraw)
            && (w > 0 && h > 0 && s.viewW == w && s.viewH == h && p.outcome.Yes? ==>
                  Holds(Step(a, Redraw(p)).gpu.osr, w, h, src))
  {
    if w > 0 && h > 0 {
      CefPaintKeepsInv(s, w, h, src);
      var a := Step(s, CefPaint(w, h, src));
      if s.viewW == w && s.viewH == h && p.outcome.Yes? {
        SubmittedShowsScratch(a, p);
        PaintConsumesIff(a, p);
      }
    }
  }

  /** A skipped frame, and no other, is retried: the first tick 8 ms on or later requests the redraw. */
  lemma SkippedFrameIsRetried(s: State, p: PaintInput, now: nat)
    requires Bounds(s)
    ensures var a := Paint(s, p);
            var b := Step(a, Tick(now));
            && !a.redraw
            && a.retryAt == (if p.outcome.No? then Some(p.now + 8) else None)
            && (if p.outcome.No? && now >= p.now + 8 then b == a.(retryAt := None, redraw := true) else b == a)
  {
    hide Consume, Execute;
  }

  lemma PaintRefines(s: State, p: PaintInput)
    requires Inv(s)
    ensures Shown(Paint(s, p)) == ReferencePaint(Shown(s), p.outcome.Yes?)
  {
    var c := Consume(s);
    if p.outcome.Yes? && c.dims.Some? {
      SubmittedShowsScratch(s, p);
    }
  }

  lemma StepRefines(s: State, e: Event)
    requires Inv(s)
    ensures Shown(Step(s, e)) == ReferenceStep(Shown(s), e)
  {
    hide Paint;
    match e
    case WindowResized(p) => PaintRefines(s.(chromeGen := s.chromeGen + 1), p);
    case Redraw(p) => PaintRefines(s, p);
    case _ =>
  }

  /** The cached window shows, after any run, what the window that uploads everything shows. */
  lemma {:induction false} CachedPopupRefinesReference(s: State, events: seq<Event>)
    requires Inv(s)
    ensures Shown(Run(s, events)) == ReferenceRun(Shown(s), events)
    decreases |events|
  {
    if events != [] {
      StepKeepsInv(s, events[0]);
      StepRefines(s, events[0]);
      CachedPopupRefinesReference(Step(s, events[0]), events[1..]);
    }
  }

  /**
   From its creation on, through any run, a popup skips only pixels that are on the GPU, consumes each
   generation once, and shows what a window that remembers nothing of the GPU would show.
  */
  lemma EveryRunShowsTheReference(s: State, events: seq<Event>)
    requires Initial(s)
    ensures var r := Run(s, events);
            && Agree(r) && StaleIsOwed(r) && StrictlyIncreasing(r.consumed)
            && Shown(r) == ReferenceRun(Reference(s.frame, s.viewW, s.viewH, [], 0, None, None), events)
  {
    InitialInv(s);
    RunKeepsInv(s, events);
    CachedPopupRefinesReference(s, events);
    hide Run, ReferenceRun, Inv;
  }

  // ---- the address bar --------------------------------------------------------------------------

  predicate BarUpToDate(s: State) {
    s.gpu.chrome == PopupChrome(s.bar, s.gpu.chromeLw, s.gpu.chromeLh)
  }

  /** A submitted frame of a changed bar leaves exactly the current bar on the GPU and retires the change. */
  lemma DirtyBarReachesGpu(s: State, p: PaintInput)
    requires Inv(s) && s.chromeGen != s.paintedGen
    ensures var r := Paint(s, p);
            && (p.outcome.Yes? <==> r.paintedGen == r.chromeGen)
            && (p.outcome.Yes? ==> BarUpToDate(r))
            && (!p.outcome.Yes? ==> r.gpu == s.gpu && (p.outcome.No? ==> r.retryAt.Some?))
  {
    BarUploadIsFull(s, p.lw, p.lh);
  }

  /**
   A changed address asks for the redraw that shows it, and a resize repaints the bar with the frame that
   reallocates its texture; if that frame is not submitted the bar stays owed.
  */
  lemma ChangedBarIsShown(s: State, bar: Bar, p: PaintInput)
    requires Inv(s)
    ensures var a := Step(s, UrlChanged(bar));
            var r, v := Step(a, Redraw(p)), Step(s, WindowResized(p));
            && a.redraw && a.bar == bar && v.bar == s.bar
            && (if p.outcome.Yes? then BarUpToDate(r) && BarUpToDate(v)
                else r.paintedGen != r.chromeGen && v.paintedGen != v.chromeGen)
            && (p.outcome.Yes? ==> v.gpu.chromeLw == p.lw && v.gpu.chromeLh == p.lh)
  {
    hide Paint, Inv, BarUpToDate;
    GenerationsOrdered(s);
    var a, u := Step(s, UrlChanged(bar)), s.(chromeGen := s.chromeGen + 1);
    MarkDirtyKeepsInv(s, bar, true);
    MarkDirtyKeepsInv(s, s.bar, s.redraw);
    DirtyBarReachesGpu(a, p);
    DirtyBarReachesGpu(u, p);
    PaintKeepsBar(a, p);
    PaintKeepsBar(u, p);
  }

  lemma GenerationsOrdered(s: State)
    requires Inv(s)
    ensures Bounds(s) && s.paintedGen <= s.chromeGen
  {
  }

  lemma PaintKeepsBar(s: State, p: PaintInput)
    requires Bounds(s)
    ensures var r := Paint(s, p); r.bar == s.bar && r.chromeGen == s.chromeGen
    ensures p.outcome.Yes? ==> Paint(s, p).gpu.chromeLw == p.lw && Paint(s, p).gpu.chromeLh == p.lh
  {
  }

  /** Which is to say: the bar's own drawing in the first 30 rows and nothing below them, in any window that has 30. */
  lemma SubmittedBarCell(s: State, p: PaintInput, row: nat, col: nat)
    requires Inv(s) && s.chromeGen != s.paintedGen && p.outcome.Yes? && row < p.lh && col < p.lw
    ensures var r, k := Paint(s, p), row * p.lw + col;
            && |r.gpu.chrome| == p.lh * p.lw && k < |r.gpu.chrome|
            && r.gpu.chrome[k] == if row < 30 <= p.lh then s.bar(p.lw, p.lh, k) else 0
  {
    DirtyBarReachesGpu(s, p);
    PaintKeepsBar(s, p);
    hide Paint, Inv;
    BarCell(s.bar, p.lw, p.lh, row, col);
    hide PopupChrome;
  }

  lemma BarCell(bar: Bar, lw: nat, lh: nat, row: nat, col: nat)
    requires row < lh && col < lw
    ensures var k := row * lw + col;
            k < lh * lw && PopupChrome(bar, lw, lh)[k] == if row < 30 <= lh then bar(lw, lh, k) else 0
  {
    RowsInside(lw, row + 1, lh);
    if row < 30 {
      RowsInside(lw, row + 1, 30);
    } else {
      RowsInside(lw, 30, row);
    }
  }

  /**
   A bar that is up to date stays so across a clean paint, except when the frame is submitted at
   another logical size: the worker then starts a transparent texture and no pixels come with
   it. The generations stay equal, so nothing is owed until the window is marked dirty again.
  */
  lemma CleanBarStaysUpToDateIff(s: State, p: PaintInput)
    requires Inv(s) && s.chromeGen == s.paintedGen && BarUpToDate(s)
    ensures var r := Paint(s, p);
            && r.chromeGen == r.paintedGen
            && (BarUpToDate(r) <==>
                  !(p.outcome.Yes? && (p.lw != s.gpu.chromeLw || p.lh != s.gpu.chromeLh)
                    && PopupChrome(s.bar, p.lw, p.lh) != Blank(p.lw, p.lh)))
  {
    var r := Paint(s, p);
    assert r.bar == s.bar;
  }

  // ---- in place ---------------------------------------------------------------------------------

  class PopupWindow {
    const frame: SharedFrame
    const renderer: Renderer
    var viewW: nat
    var viewH: nat
    var osrScratch: seq<Byte>
    var lastOsrGeneration: nat
    var lastOsrDims: Option<(nat, nat)>
    var osrGpuStale: bool
    var bar: Bar
    var chromeGeneration: nat
    var lastPaintedChromeGen: nat
    var repaintRetryAt: Option<nat>
    var redrawRequested: bool
    ghost var lastFrameErrored: bool
    ghost var consumed: seq<nat>

    ghost function Model(): State
      reads this, frame, renderer
    {
      State(
        frame.Value(), viewW, viewH, osrScratch, lastOsrGeneration, lastOsrDims, osrGpuStale,
        bar, chromeGeneration, lastPaintedChromeGen, repaintRetryAt, redrawRequested,
        renderer.gpu, lastFrameErrored, consumed)
    }

    constructor (frame: SharedFrame, renderer: Renderer, viewW: nat, viewH: nat, bar: Bar)
      requires GpuValid(renderer.gpu) && renderer.gpu.osr == Unallocated
      requires renderer.gpu.chrome == Blank(renderer.gpu.chromeLw, renderer.gpu.chromeLh)
      ensures this.frame == frame && this.renderer == renderer
      ensures Initial(Model()) && Model().frame == frame.Value()
    {
      this.frame, this.renderer := frame, renderer;
      this.viewW, this.viewH, this.bar := viewW, viewH, bar;
      osrScratch, lastOsrGeneration, lastOsrDims, osrGpuStale := [], 0, None, false;
      chromeGeneration, lastPaintedChromeGen := 1, 0;
      repaintRetryAt, redrawRequested := None, false;
      lastFrameErrored, consumed := false, [];
    }

    /** The swap under the frame lock. The consumed generation is committed by the caller. */
    method AcquireFrame() returns (osrMeta: Option<(nat, nat, nat)>)
      modifies this, frame
      ensures var was := old(Model());
              && Model() == Consume(was).(lastGen := was.lastGen)
              && (osrMeta.Some? <==> Fresh(was))
              && (osrMeta.Some? ==>
                    lastOsrDims == Some((osrMeta.value.0, osrMeta.value.1))
                    && osrMeta.value.2 == Consume(was).lastGen)
    {
      osrMeta := None;
      var accepted := IsFresh(
        Frame(frame.width, frame.height, frame.pixels, frame.generation, frame.needsFresh),
        lastOsrGeneration, viewW, viewH);
      if accepted {
        lastOsrDims := Some((frame.width, frame.height));
        osrScratch, frame.pixels := frame.pixels, osrScratch;
        osrMeta := Some((frame.width, frame.height, frame.generation));
        consumed := consumed + [frame.generation];
      }
    }

    /** The three arms: fresh pixels, a re-send of the scratch buffer, or no picture yet. */
    method BuildUpload(osrMeta: Option<(nat, nat, nat)>) returns (upload: Option<OsrUpload>, newGen: nat)
      requires osrMeta.Some? ==> lastOsrDims == Some((osrMeta.value.0, osrMeta.value.1))
      ensures newGen == if osrMeta.Some? then osrMeta.value.2 else lastOsrGeneration
      ensures upload == Upload(Model().(lastGen := newGen), osrMeta.Some?)
    {
      if osrMeta.Some? {
        newGen := osrMeta.value.2;
        upload := Some(OsrUpload(osrScratch, osrMeta.value.0, osrMeta.value.1, newGen, false));
      } else if lastOsrDims.Some? {
        newGen := lastOsrGeneration;
        upload := Some(OsrUpload(osrScratch, lastOsrDims.value.0, lastOsrDims.value.1, newGen, !osrGpuStale));
      } else {
        newGen := lastOsrGeneration;
        upload := None;
      }
    }

    /** Everything after the swap: the upload, the frame, and what the renderer's answer means. */
    method DrawInPlace(osrMeta: Option<(nat, nat, nat)>, lw: nat, lh: nat, surface: Surface, now: nat)
      requires Bounds(Model())
      requires osrMeta.Some? ==> lastOsrDims == Some((osrMeta.value.0, osrMeta.value.1))
      modifies this, renderer
      ensures var (worker, outcome) := Answer(old(renderer.WorkerModel()), surface);
              var taken := old(Model()).(
                lastGen := if osrMeta.Some? then osrMeta.value.2 else old(lastOsrGeneration));
              && Model() == Commit(taken, osrMeta.Some?, PaintInput(lw, lh, outcome, now))
              && renderer.WorkerModel() == worker
    {
      hide Execute, DecideFrameCommit, Answer, PopupChrome, Upload;
      var chromeDirty := chromeGeneration != lastPaintedChromeGen;
      var carriedOsrUpload := osrMeta.Some? || lastOsrDims.Some?;
      var upload, newGen := BuildUpload(osrMeta);
      UploadFits(Model().(lastGen := newGen), osrMeta.Some?);
      var chrome := if chromeDirty then Some(PopupChrome(bar, lw, lh)) else None;
      var outcome := renderer.Frame(Command(lw, lh, BAR_H, 0, chrome, upload), surface);
      Settle(newGen, carriedOsrUpload, chromeDirty, outcome, now);
    }

    /** Paint one frame: the step for the outcome the renderer gives. `surface` is the compositor's answer. */
    method PaintPopupWindow(lw: nat, lh: nat, surface: Surface, now: nat)
      requires Bounds(Model())
      modifies this, frame, renderer
      ensures var (worker, outcome) := Answer(old(renderer.WorkerModel()), surface);
              && Model() == Paint(old(Model()), PaintInput(lw, lh, outcome, now))
              && renderer.WorkerModel() == worker
    {
      hide Commit, Answer;
      ghost var was := Model();
      var osrMeta := AcquireFrame();
      TakenBounds(was);
      DrawInPlace(osrMeta, lw, lh, surface, now);
    }

    /** The bookkeeping that follows a frame, once the renderer has answered. */
    method Settle(newGen: nat, carriedOsrUpload: bool, chromeDirty: bool, outcome: Outcome, now: nat)
      modifies this
      ensures var commit := DecideFrameCommit(outcome, chromeDirty);
              var was := old(Model());
              Model() == was.(
                lastGen := newGen,
                stale := if carriedOsrUpload then !outcome.Yes? else was.stale,
                paintedGen := if commit.advanceChromeGen then was.chromeGen else was.paintedGen,
                retryAt := if commit.retryPaint then Some(now + SKIPPED_FRAME_RETRY_DELAY) else None,
                redraw := false,
                lastErr := outcome.Err?)
    {
      lastOsrGeneration := newGen;
      if carriedOsrUpload {
        osrGpuStale := !outcome.Yes?;
      }
      var commit := DecideFrameCommit(outcome, chromeDirty);
      if commit.advanceChromeGen {
        lastPaintedChromeGen := chromeGeneration;
      }
      repaintRetryAt := if commit.retryPaint then Some(now + SKIPPED_FRAME_RETRY_DELAY) else None;
      redrawRequested := false;
      lastFrameErrored := outcome.Err?;
    }

    /** The resize arm: the chrome is marked dirty before the synchronous paint. */
    method OnResized(lw: nat, lh: nat, surface: Surface, now: nat)
      requires Bounds(Model())
      modifies this, frame, renderer
      ensures var (worker, outcome) := Answer(old(renderer.WorkerModel()), surface);
              && Model() == Step(old(Model()), WindowResized(PaintInput(lw, lh, outcome, now)))
              && renderer.WorkerModel() == worker
    {
      chromeGeneration := chromeGeneration + 1;
      PaintPopupWindow(lw, lh, surface, now);
    }

    /** The popup's retry section of `about_to_wait`. */
    method OnTick(now: nat)
      requires Bounds(Model())
      modifies this
      ensures Model() == Step(old(Model()), Tick(now))
    {
      if repaintRetryAt.Some? && now >= repaintRetryAt.value {
        repaintRetryAt := None;
        redrawRequested := true;
      }
    }
  }

  lemma TakenBounds(s: State)
    requires Bounds(s)
    ensures Bounds(Consume(s).(lastGen := s.lastGen)) && (!Fresh(s) ==> Consume(s) == s)
  {
  }

  /** No upload reads past its buffer. */
  lemma UploadFits(s: State, took: bool)
    requires Bounds(s)
    ensures var u := Upload(s, took); u.Some? ==> InBounds(u.value)
  {
  }
}
