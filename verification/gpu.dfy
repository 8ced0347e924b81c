/**
 The render worker's side of a frame: the OSR texture with its generation dedupe, the chrome
 texture with its band uploads, and what the UI thread may commit once it knows whether a
 frame reached the worker.

 The worker executes submitted commands one at a time and in order, so the state below is the
 textures after everything submitted so far has been executed.
*/
module Gpu {
  import opened Options
  import opened Osr

  type Pixel = nat

  // ---- OSR texture ------------------------------------------------------------------------------

  /** What one frame asks the worker to show as the page. `skipPixels` sends an empty buffer. */
  datatype OsrUpload =
    OsrUpload(pixels: seq<Byte>, width: nat, height: nat, generation: nat, skipPixels: bool)

  datatype OsrTexture =
    | Unallocated
    | Texture(width: nat, height: nat, lastGeneration: Option<nat>, texels: seq<Byte>)

  /** The buffer that travels to the worker. */
  function Owned(u: OsrUpload): seq<Byte> {
    if u.skipPixels then [] else u.pixels
  }

  /** wgpu's own demand: a texture write must find all its bytes in the source buffer. */
  predicate InBounds(u: OsrUpload) {
    Owned(u) == [] || |Owned(u)| >= ByteLen(u.width, u.height)
  }

  /** `write_osr` / `maybe_upload`. */
  function WriteOsr(t: OsrTexture, u: OsrUpload): OsrTexture
    requires InBounds(u)
  {
    if u.width == 0 || u.height == 0 then t
    else
      var sized :=
        if t.Texture? && t.width == u.width && t.height == u.height then t
        else Texture(u.width, u.height, None, Zeros(ByteLen(u.width, u.height)));
      if sized.lastGeneration != Some(u.generation) && Owned(u) != [] then
        Texture(u.width, u.height, Some(u.generation), Owned(u)[..ByteLen(u.width, u.height)])
      else sized
  }

  /** The picture the page quad samples. */
  predicate Holds(t: OsrTexture, w: nat, h: nat, pixels: seq<Byte>) {
    t.Texture? && t.width == w && t.height == h && t.texels == pixels
  }

  /** The worker already has this size and generation, but other pixels: its dedupe drops the upload. */
  predicate Collides(t: OsrTexture, u: OsrUpload) {
    && t.Texture? && t.width == u.width && t.height == u.height
    && t.lastGeneration == Some(u.generation)
    && t.texels != u.pixels
  }

  lemma ByteLenPositive(w: nat, h: nat)
    requires w > 0 && h > 0
    ensures ByteLen(w, h) > 0
  {
    assert w * h >= 1 * h;
  }

  /** A real upload of a well-sized buffer is what ends up on the texture, unless the dedupe drops it. */
  lemma RealUploadHoldsIff(t: OsrTexture, u: OsrUpload)
    requires u.width > 0 && u.height > 0 && !u.skipPixels && |u.pixels| == ByteLen(u.width, u.height)
    ensures Holds(WriteOsr(t, u), u.width, u.height, u.pixels) <==> !Collides(t, u)
    ensures !Collides(t, u) ==> WriteOsr(t, u).lastGeneration == Some(u.generation)
  {
    ByteLenPositive(u.width, u.height);
    assert u.pixels[..ByteLen(u.width, u.height)] == u.pixels;
  }

  /** A frame with an empty side is no picture: the texture, its generation and what it shows stay. */
  lemma EmptyUploadIsIgnored(g: Gpu, c: Command)
    requires GpuValid(g) && CommandValid(c)
    ensures c.osr == None || c.osr.value.width == 0 || c.osr.value.height == 0 ==> Execute(g, c).osr == g.osr
  {
  }

  // ---- chrome texture ---------------------------------------------------------------------------

  /** One strip of the chrome texture, addressed as the worker addresses it. */
  datatype ChromeBand = ChromeBand(originY: nat, height: nat, byteOffset: nat)

  /** `chrome_upload_bands`. */
  function ChromeUploadBands(lw: nat, lh: nat, topBand: nat, bottomBand: nat)
    : (r: (Option<ChromeBand>, Option<ChromeBand>))
  {
    var topH := Min(topBand, lh);
    var bottomH := Min(bottomBand, lh - topH);
    (if topH > 0 then Some(ChromeBand(0, topH, 0)) else None,
     if bottomH > 0 then Some(ChromeBand(lh - bottomH, bottomH, 4 * lw * (lh - bottomH))) else None)
  }

  /** Whether a band lies inside a texture of `lw` by `lh` and reads the rows it writes. */
  predicate BandFits(lw: nat, lh: nat, b: ChromeBand) {
    b.originY + b.height <= lh && b.byteOffset == 4 * (b.originY * lw)
  }

  lemma BandsFit(lw: nat, lh: nat, topBand: nat, bottomBand: nat)
    ensures var (t, b) := ChromeUploadBands(lw, lh, topBand, bottomBand);
            && (t.Some? ==> BandFits(lw, lh, t.value))
            && (b.Some? ==> BandFits(lw, lh, b.value))
            && (t.Some? && b.Some? ==> t.value.originY + t.value.height <= b.value.originY)
  {
    var topH := Min(topBand, lh);
    var bottomH := Min(bottomBand, lh - topH);
    assert 4 * lw * (lh - bottomH) == 4 * ((lh - bottomH) * lw);
  }

  lemma RowsInside(lw: nat, a: nat, b: nat)
    requires a <= b
    ensures a * lw <= b * lw
  {
  }

  /** One `write_texture` of a band: `height` rows from `byteOffset` land at row `originY`. */
  function WriteBand(tex: seq<Pixel>, pixels: seq<Pixel>, lw: nat, lh: nat, band: Option<ChromeBand>): (r: seq<Pixel>)
    requires |tex| == |pixels| == lh * lw
    requires band.Some? ==> BandFits(lw, lh, band.value)
    ensures |r| == |tex|
    ensures forall k :: 0 <= k < |r| ==>
      r[k] == if band.Some? && band.value.originY * lw <= k < (band.value.originY + band.value.height) * lw
              then pixels[k] else tex[k]
  {
    if band == None then tex
    else
      var from := band.value.byteOffset / 4;
      var lo, hi := band.value.originY * lw, (band.value.originY + band.value.height) * lw;
      RowsInside(lw, band.value.originY, band.value.originY + band.value.height);
      RowsInside(lw, band.value.originY + band.value.height, lh);
      tex[..lo] + pixels[from..from + (hi - lo)] + tex[hi..]
  }

  /** `write_chrome`: only the two bands travel. */
  function WriteChrome(tex: seq<Pixel>, pixels: seq<Pixel>, lw: nat, lh: nat, topBand: nat, bottomBand: nat): (r: seq<Pixel>)
    requires |tex| == |pixels| == lh * lw
    ensures |r| == |tex|
  {
    BandsFit(lw, lh, topBand, bottomBand);
    var (top, bottom) := ChromeUploadBands(lw, lh, topBand, bottomBand);
    WriteBand(WriteBand(tex, pixels, lw, lh, top), pixels, lw, lh, bottom)
  }

  /** Cell `k` of an `lw` by `lh` buffer lies in a row that an upload with these bands carries. */
  predicate InBands(lw: nat, lh: nat, topBand: nat, bottomBand: nat, k: nat) {
    var topH := Min(topBand, lh);
    var bottomH := Min(bottomBand, lh - topH);
    k < topH * lw || (lh - bottomH) * lw <= k
  }

  /** The band upload, cell by cell. */
  lemma WriteChromeCells(tex: seq<Pixel>, pixels: seq<Pixel>, lw: nat, lh: nat, topBand: nat, bottomBand: nat)
    requires |tex| == |pixels| == lh * lw
    ensures var r := WriteChrome(tex, pixels, lw, lh, topBand, bottomBand);
            forall k :: 0 <= k < |r| ==>
              r[k] == if InBands(lw, lh, topBand, bottomBand, k) then pixels[k] else tex[k]
  {
    BandsFit(lw, lh, topBand, bottomBand);
    var topH := Min(topBand, lh);
    var bottomH := Min(bottomBand, lh - topH);
    RowsInside(lw, topH, lh - bottomH);
  }

  /** A top band of the full height is a full upload. */
  lemma FullBandIsFullUpload(tex: seq<Pixel>, pixels: seq<Pixel>, lw: nat, lh: nat)
    requires |tex| == |pixels| == lh * lw
    ensures WriteChrome(tex, pixels, lw, lh, lh, 0) == pixels
  {
    WriteChromeCells(tex, pixels, lw, lh, lh, 0);
  }

  // ---- one command ------------------------------------------------------------------------------

  datatype Gpu = Gpu(osr: OsrTexture, chromeLw: nat, chromeLh: nat, chrome: seq<Pixel>)

  datatype Command = Command(
    lw: nat, lh: nat, topBand: nat, bottomBand: nat,
    chromePixels: Option<seq<Pixel>>, osr: Option<OsrUpload>)

  function Blank(lw: nat, lh: nat): (r: seq<Pixel>)
    ensures |r| == lh * lw
  {
    seq(lh * lw, _ => 0)
  }

  predicate GpuValid(g: Gpu) {
    |g.chrome| == g.chromeLh * g.chromeLw
  }

  /** The chrome texture once it has the command's logical size: a new one starts transparent. */
  function SizedChrome(g: Gpu, lw: nat, lh: nat): (r: seq<Pixel>)
    requires GpuValid(g)
    ensures |r| == lh * lw
  {
    if g.chromeLw == lw && g.chromeLh == lh then g.chrome else Blank(lw, lh)
  }

  predicate CommandValid(c: Command) {
    && (c.chromePixels.Some? ==> |c.chromePixels.value| == c.lh * c.lw)
    && (c.osr.Some? ==> InBounds(c.osr.value))
  }

  /** One iteration of the worker loop. */
  function Execute(g: Gpu, c: Command): (r: Gpu)
    requires GpuValid(g) && CommandValid(c)
    ensures GpuValid(r)
  {
    var sized := SizedChrome(g, c.lw, c.lh);
    Gpu(
      if c.osr.Some? then WriteOsr(g.osr, c.osr.value) else g.osr,
      c.lw, c.lh,
      if c.chromePixels.Some?
      then WriteChrome(sized, c.chromePixels.value, c.lw, c.lh, c.topBand, c.bottomBand)
      else sized)
  }

  // ---- the worker's clockwork -------------------------------------------------------------------

  /** What the worker measures of one frame: how long submitting and presenting it took. */
  datatype Stats = Stats(presentUs: nat, submitUs: nat)

  /**
   The UI thread's view of the worker: the last report it has seen, how many frames it believes
   unpresented, and the reports waiting in the channel.
  */
  datatype Worker = Worker(
    last: Stats, inFlight: nat, channel: seq<Stats>,
    // the fields below only record the run: frames submitted, and every report in their order
    submitted: nat, reports: seq<Stats>)

  /** `Ok(Submitted::Yes)` with the number that comes with it, `Ok(Submitted::No)`, or `Err`. */
  datatype Outcome = Yes(submitDoneUs: nat) | No | Err

  /** What asking the compositor for a surface texture gives. */
  datatype Surface = Acquired | Refused | Failed

  const NO_STATS := Stats(0, 0)

  function FreshWorker(): Worker {
    Worker(NO_STATS, 0, [], 0, [])
  }

  /** The worker has presented a frame; it reports every frame it was given once. */
  function Report(w: Worker, st: Stats): Worker {
    if |w.reports| < w.submitted then w.(channel := w.channel + [st], reports := w.reports + [st]) else w
  }

  /** `poll_present_stats`: the channel is drained and its newest report, if any, is returned. */
  function Poll(w: Worker): (Worker, Option<Stats>) {
    if w.channel == [] then (w, None)
    else
      var newest := w.channel[|w.channel| - 1];
      (w.(last := newest, inFlight := if w.inFlight >= |w.channel| then w.inFlight - |w.channel| else 0,
          channel := []),
       Some(newest))
  }

  /** `frame`: nothing is asked of the compositor while a frame is unpresented. */
  function Answer(w: Worker, surface: Surface): (Worker, Outcome) {
    var p := Poll(w).0;
    if p.inFlight > 0 then (p, No)
    else
      match surface
      case Acquired => (p.(inFlight := p.inFlight + 1, submitted := p.submitted + 1), Yes(p.last.submitUs))
      case Refused => (p, No)
      case Failed => (p, Err)
  }

  /** At most one frame is unpresented, and the reports not seen yet are the newest ones. */
  predicate WorkerInv(w: Worker) {
    && w.inFlight <= 1
    && |w.reports| <= w.submitted && w.submitted - |w.reports| + |w.channel| == w.inFlight
    && (w.channel == [] ==> w.last == NewestOf(w.reports))
    && (w.channel != [] ==> w.reports != [] && w.channel == [NewestOf(w.reports)])
  }

  function NewestOf(reports: seq<Stats>): Stats {
    if reports == [] then NO_STATS else reports[|reports| - 1]
  }

  lemma WorkerStepsKeepInv(w: Worker, st: Stats, surface: Surface)
    requires WorkerInv(w)
    ensures WorkerInv(Report(w, st)) && WorkerInv(Poll(w).0) && WorkerInv(Answer(w, surface).0)
  {
  }

  datatype WorkerEvent = Presented(stats: Stats) | PollStats | AskFrame(surface: Surface)

  function RunWorker(w: Worker, events: seq<WorkerEvent>): Worker
    decreases |events|
  {
    if events == [] then w
    else
      var next := match events[0]
        case Presented(st) => Report(w, st)
        case PollStats => Poll(w).0
        case AskFrame(surface) => Answer(w, surface).0;
      RunWorker(next, events[1..])
  }

  lemma {:induction false} RunKeepsWorkerInv(w: Worker, events: seq<WorkerEvent>)
    requires WorkerInv(w)
    ensures WorkerInv(RunWorker(w, events))
    decreases |events|
  {
    if events != [] {
      var (st, surface) := (if events[0].Presented? then events[0].stats else NO_STATS,
                            if events[0].AskFrame? then events[0].surface else Refused);
      WorkerStepsKeepInv(w, st, surface);
      match events[0]
      case Presented(_) => RunKeepsWorkerInv(Report(w, st), events[1..]);
      case PollStats => RunKeepsWorkerInv(Poll(w).0, events[1..]);
      case AskFrame(_) => RunKeepsWorkerInv(Answer(w, surface).0, events[1..]);
    }
  }

  /**
   However reports, polls and frames interleave: a frame is submitted exactly if the compositor gives
   a texture and every earlier frame has reported, and the number that comes back with it is the
   previous frame's, 0 for the first.
  */
  lemma SampleIsPreviousFrames(events: seq<WorkerEvent>, surface: Surface)
    ensures var w := RunWorker(FreshWorker(), events);
            && (Answer(w, surface).1.Yes? <==> surface.Acquired? && |w.reports| == w.submitted)
            && (Answer(w, surface).1.Err? <==> surface.Failed? && |w.reports| == w.submitted)
            && (Answer(w, surface).1.Yes? ==> Answer(w, surface).1.submitDoneUs == NewestOf(w.reports).submitUs)
  {
    RunKeepsWorkerInv(FreshWorker(), events);
  }

  // ---- outcome of a frame -----------------------------------------------------------------------

  datatype FrameCommit = FrameCommit(advanceChromeGen: bool, observeUs: Option<nat>, retryPaint: bool)

  /** `decide_frame_commit`. */
  function DecideFrameCommit(o: Outcome, chromeDirtyEffective: bool): FrameCommit {
    match o
    case Yes(us) => FrameCommit(chromeDirtyEffective, Some(us), false)
    case No => FrameCommit(false, None, true)
    case Err => FrameCommit(false, None, false)
  }

  const SKIPPED_FRAME_RETRY_DELAY: nat := 8

  /** The window's renderer: it hands a command to the worker only when the frame is submitted. */
  class Renderer {
    var gpu: Gpu
    var lastPresentStats: Stats
    var framesInFlight: nat
    var rxStats: seq<Stats>
    ghost var submitted: nat
    ghost var reports: seq<Stats>

    ghost function WorkerModel(): Worker
      reads this
    {
      Worker(lastPresentStats, framesInFlight, rxStats, submitted, reports)
    }

    constructor (lw: nat, lh: nat)
      ensures gpu == Gpu(Unallocated, lw, lh, Blank(lw, lh)) && GpuValid(gpu)
      ensures WorkerModel() == FreshWorker()
    {
      gpu := Gpu(Unallocated, lw, lh, Blank(lw, lh));
      lastPresentStats, framesInFlight, rxStats, submitted, reports := NO_STATS, 0, [], 0, [];
    }

    /** The worker's side: it sends the report of a frame it has presented. */
    method SendReport(st: Stats)
      requires |reports| < submitted
      modifies this`rxStats, this`reports
      ensures WorkerModel() == Report(old(WorkerModel()), st)
    {
      rxStats := rxStats + [st];
      reports := reports + [st];
    }

    method PollPresentStats() returns (latest: Option<Stats>)
      modifies this`lastPresentStats, this`framesInFlight, this`rxStats
      ensures (WorkerModel(), latest) == Poll(old(WorkerModel()))
    {
      latest := None;
      ghost var all := rxStats;
      while rxStats != []
        invariant |rxStats| <= |all| && rxStats == all[|all| - |rxStats|..]
        invariant framesInFlight
                  == if old(framesInFlight) >= |all| - |rxStats| then old(framesInFlight) - (|all| - |rxStats|) else 0
        invariant latest == if |rxStats| == |all| then None else Some(all[|all| - |rxStats| - 1])
        invariant lastPresentStats == if latest.Some? then latest.value else old(lastPresentStats)
        decreases |rxStats|
      {
        var s := rxStats[0];
        rxStats := rxStats[1..];
        lastPresentStats := s;
        framesInFlight := if framesInFlight > 0 then framesInFlight - 1 else 0;
        latest := Some(s);
      }
    }

    /** Poll, and submit the command if no frame is unpresented and a texture can be had. */
    method Frame(c: Command, surface: Surface) returns (outcome: Outcome)
      requires GpuValid(gpu) && CommandValid(c)
      modifies this
      ensures GpuValid(gpu)
      ensures (WorkerModel(), outcome) == Answer(old(WorkerModel()), surface)
      ensures gpu == if outcome.Yes? then Execute(old(gpu), c) else old(gpu)
    {
      var _ := PollPresentStats();
      if framesInFlight > 0 {
        return No;
      }
      match surface
      case Refused => outcome := No;
      case Failed => outcome := Err;
      case Acquired =>
        framesInFlight := framesInFlight + 1;
        submitted := submitted + 1;
        gpu := Execute(gpu, c);
        outcome := Yes(lastPresentStats.submitUs);
    }
  }
}
