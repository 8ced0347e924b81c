/**
 Off-screen frames: the buffer an engine shares with the UI thread, the two producers that
 fill it (CEF's paint handler and WebKit's ingest), and the freshness gate the UI applies
 before it swaps the pixels out.
*/
module Osr {
  import opened Options

  /** Bytes of a BGRA picture. */
  function ByteLen(w: nat, h: nat): nat {
    w * h * 4
  }

  /** The shared frame as a value. */
  datatype Frame = Frame(width: nat, height: nat, pixels: seq<Byte>, generation: nat, needsFresh: bool)

  /** `OsrFrame::new`: zeroed pixels, generation 0. */
  function NewFrame(w: nat, h: nat): Frame {
    Frame(w, h, Zeros(ByteLen(w, h)), 0, false)
  }

  function Zeros(n: nat): (z: seq<Byte>)
    ensures |z| == n
  {
    seq(n, _ => 0)
  }

  /** `Vec::resize(n, 0)`: truncate, or extend with zeros. */
  function Resized(v: seq<Byte>, n: nat): (r: seq<Byte>)
    ensures |r| == n
  {
    if n <= |v| then v[..n] else v + Zeros(n - |v|)
  }

  /** What a CEF paint of valid dimensions leaves in the frame. */
  function Painted(f: Frame, w: nat, h: nat, src: seq<Byte>): Frame {
    Frame(w, h, src, f.generation + 1, false)
  }

  /**
   What a WebKit ingest leaves in the frame. Unlike CEF, a buffer that is too long for the
   unchanged dimensions is kept at its length.
   */
  function Ingested(f: Frame, w: nat, h: nat, src: seq<Byte>): Frame
    requires |src| == ByteLen(w, h)
  {
    var need := ByteLen(w, h);
    var resize := f.width != w || f.height != h || |f.pixels| < need;
    var base := if resize then Resized(f.pixels, need) else f.pixels;
    Frame(w, h, src + base[need..], f.generation + 1, false)
  }

  /** `is_osr_frame_fresh`. */
  predicate IsFresh(f: Frame, lastSeen: nat, expectedW: nat, expectedH: nat) {
    && !f.needsFresh
    && f.width > 0
    && f.height > 0
    && f.width == expectedW
    && f.height == expectedH
    && |f.pixels| == ByteLen(f.width, f.height)
    && f.generation != lastSeen
  }

  /** The size the UI thread expects of an engine's next frame. */
  class OsrView {
    var width: nat
    var height: nat

    constructor (w: nat, h: nat)
      ensures width == w && height == h
    {
      width, height := w, h;
    }
  }

  /** The frame an engine and the UI thread share, each step being one critical section. */
  class SharedFrame {
    var width: nat
    var height: nat
    var pixels: seq<Byte>
    var generation: nat
    var needsFresh: bool

    ghost function Value(): Frame
      reads this
    {
      Frame(width, height, pixels, generation, needsFresh)
    }

    constructor (w: nat, h: nat)
      ensures Value() == NewFrame(w, h)
    {
      width, height, pixels, generation, needsFresh := w, h, Zeros(ByteLen(w, h)), 0, false;
    }

    /**
     CEF's paint handler. The dimensions are C ints from the other side of the FFI: a
     non-positive one drops the paint before the buffer is looked at.
     */
    method OnPaint(w: int, h: int, src: seq<Byte>)
      requires w > 0 && h > 0 ==> |src| == ByteLen(w, h)
      modifies this
      ensures Value() == if w <= 0 || h <= 0 then old(Value()) else Painted(old(Value()), w, h, src)
    {
      if w <= 0 || h <= 0 {
        return;
      }
      var len := ByteLen(w, h);
      if width != w || height != h || |pixels| != len {
        pixels := Resized(pixels, len);
        width, height := w, h;
      }
      pixels := src + pixels[len..];  // copy_from_slice over a buffer of the same length
      assert pixels == src;
      generation := generation + 1;
      needsFresh := false;
    }

    /** `osr_resize`: the view expects another size, and the frame that is there no longer counts. */
    method RequireFresh(view: OsrView, w: nat, h: nat)
      modifies this`needsFresh, view
      ensures Value() == old(Value()).(needsFresh := true) && view.width == w && view.height == h
      ensures forall lastSeen: nat, ew: nat, eh: nat :: !IsFresh(Value(), lastSeen, ew, eh)
    {
      view.width, view.height := w, h;
      needsFresh := true;
    }

    /**
     WebKit's ingest of a validated buffer. It makes the view expect the size that came, so whether a
     consumer that has not seen it accepts it depends on the buffer alone.
     */
    method Ingest(view: OsrView, w: nat, h: nat, src: seq<Byte>)
      requires |src| == ByteLen(w, h)
      modifies this, view
      ensures Value() == Ingested(old(Value()), w, h, src) && view.width == w && view.height == h
      ensures w > 0 && h > 0 ==> forall lastSeen: nat :: lastSeen <= old(generation) ==>
                (IsFresh(Value(), lastSeen, view.width, view.height)
                 <==> !(old(width) == w && old(height) == h && old(|pixels|) > ByteLen(w, h)))
    {
      ghost var was := Value();
      if view.width != w {
        view.width := w;
      }
      if view.height != h {
        view.height := h;
      }
      var need := ByteLen(w, h);
      if width != w || height != h || |pixels| < need {
        width, height := w, h;
        pixels := Resized(pixels, need);
      }
      needsFresh := false;
      pixels := src + pixels[need..];
      generation := generation + 1;
      assert Value() == Ingested(was, w, h, src);
      if w > 0 && h > 0 {
        forall lastSeen: nat | lastSeen <= was.generation
          ensures IsFresh(Ingested(was, w, h, src), lastSeen, w, h)
                  <==> !(was.width == w && was.height == h && |was.pixels| > need)
        {
          IngestIsFreshIff(was, w, h, src, lastSeen);
        }
      }
    }
  }

  // ---- the buffer the UI hands back -------------------------------------------------------------

  /**
   A CEF paint at the expected size always passes the gate of a consumer that has not seen
   its generation, whatever buffer an earlier swap handed back.
   */
  lemma CefPaintIsFresh(f: Frame, w: nat, h: nat, src: seq<Byte>, lastSeen: nat)
    requires w > 0 && h > 0 && |src| == ByteLen(w, h) && lastSeen <= f.generation
    ensures IsFresh(Painted(f, w, h, src), lastSeen, w, h)
  {
    assert Painted(f, w, h, src).generation == f.generation + 1;
  }

  /** After `osr_resize` no consumer takes the frame at any size, until the engine has painted again. */
  lemma ResizedFrameIsRejected(f: Frame, w: nat, h: nat, src: seq<Byte>, lastSeen: nat)
    requires w > 0 && h > 0 && |src| == ByteLen(w, h) && lastSeen <= f.generation
    ensures var waiting := f.(needsFresh := true);
            && (forall ew: nat, eh: nat :: !IsFresh(waiting, lastSeen, ew, eh))
            && (forall ew: nat, eh: nat ::
                  IsFresh(Painted(waiting, w, h, src), lastSeen, ew, eh) <==> ew == w && eh == h)
  {
    CefPaintIsFresh(f.(needsFresh := true), w, h, src, lastSeen);
  }

  /** A WebKit ingest passes the same gate exactly when the handed-back buffer is not an oversized one. */
  lemma IngestIsFreshIff(f: Frame, w: nat, h: nat, src: seq<Byte>, lastSeen: nat)
    requires w > 0 && h > 0 && |src| == ByteLen(w, h) && lastSeen <= f.generation
    ensures IsFresh(Ingested(f, w, h, src), lastSeen, w, h)
            <==> !(f.width == w && f.height == h && |f.pixels| > ByteLen(w, h))
  {
    var g := Ingested(f, w, h, src);
    assert g.generation == f.generation + 1;
    if f.width == w && f.height == h && |f.pixels| > ByteLen(w, h) {
      assert |g.pixels| == |f.pixels|;
    } else {
      assert |g.pixels| == ByteLen(w, h);
    }
  }

  /** The frame after a run of ingests that keep the dimensions. */
  function IngestAll(f: Frame, w: nat, h: nat, srcs: seq<seq<Byte>>): (g: Frame)
    requires forall i :: 0 <= i < |srcs| ==> |srcs[i]| == ByteLen(w, h)
  {
    if srcs == [] then f
    else Ingested(IngestAll(f, w, h, srcs[..|srcs| - 1]), w, h, srcs[|srcs| - 1])
  }

  /** Once oversized, the buffer stays oversized: no number of ingests at that size is ever shown. */
  lemma {:induction false} OversizedBufferFreezes(f: Frame, w: nat, h: nat, srcs: seq<seq<Byte>>, lastSeen: nat)
    requires f.width == w && f.height == h && |f.pixels| > ByteLen(w, h)
    requires forall i :: 0 <= i < |srcs| ==> |srcs[i]| == ByteLen(w, h)
    ensures var g := IngestAll(f, w, h, srcs);
            && g.width == w && g.height == h
            && |g.pixels| == |f.pixels|
            && g.generation == f.generation + |srcs|
            && !IsFresh(g, lastSeen, w, h)
    decreases |srcs|
  {
    if srcs != [] {
      OversizedBufferFreezes(f, w, h, srcs[..|srcs| - 1], lastSeen);
    }
  }

  /** What one accepted swap leaves behind: the consumer's old buffer, under the frame's dimensions. */
  function SwappedOut(f: Frame, scratch: seq<Byte>): Frame {
    f.(pixels := scratch)
  }

  /**
   Shrinking reaches the freeze: after a frame of the larger size was consumed and one of the
   smaller size is, the swap hands the larger buffer back under the smaller dimensions. CEF
   recovers on its next paint; WebKit never does.
   */
  lemma ShrinkFreezesWebKitOnly(small: Frame, large: seq<Byte>, srcs: seq<seq<Byte>>, src: seq<Byte>)
    requires small.width > 0 && small.height > 0
    requires |large| > ByteLen(small.width, small.height)
    requires |src| == ByteLen(small.width, small.height)
    requires forall i :: 0 <= i < |srcs| ==> |srcs[i]| == |src|
    ensures var f := SwappedOut(small, large);
            && IsFresh(Painted(f, f.width, f.height, src), small.generation, f.width, f.height)
            && !IsFresh(IngestAll(f, f.width, f.height, srcs), small.generation, f.width, f.height)
  {
    var f := SwappedOut(small, large);
    CefPaintIsFresh(f, f.width, f.height, src, small.generation);
    OversizedBufferFreezes(f, f.width, f.height, srcs, small.generation);
  }
}
