/**
 Centred modal panels and how they are painted: their geometry in 32-bit arithmetic, the rectangle
 fill over a flat pixel buffer, and the border-then-content pair of fills.
*/
module Pixels {
  import opened Options

  newtype U32 = x: int | 0 <= x < 0x1_0000_0000
  newtype U64 = x: int | 0 <= x < 0x1_0000_0000_0000_0000

  const MAX_WIDTH: U32 := 800
  const BORDER: U32 := 2

  function MinU(a: U32, b: U32): U32 {
    if a <= b then a else b
  }

  function MaxU(a: U32, b: U32): U32 {
    if a >= b then a else b
  }

  function SaturatingSub(a: U32, b: U32): U32 {
    if a >= b then a - b else 0
  }

  // ---- geometry ---------------------------------------------------------------------------------

  datatype ModalPanel = ModalPanel(
    x: U32, y: U32, w: U32, h: U32,
    innerX: U32, innerY: U32, innerW: U32, innerH: U32)

  /**
   `ModalPanel::new`. That this is a function at all says that nothing in it leaves 32 bits, for any
   window; the content height is the caller's, and leaves room for the border.
  */
  function NewPanel(winW: U32, winH: U32, minW: U32, contentH: U32): (p: ModalPanel)
    requires contentH as int + 2 * BORDER as int < 0x1_0000_0000
    ensures p.x as int + p.w as int <= winW as int && p.y as int + p.h as int <= winH as int
    ensures MinU(minW, winW) <= p.w <= MaxU(MAX_WIDTH, minW)
    ensures 2 * p.x as int + p.w as int == winW as int || 2 * p.x as int + p.w as int == winW as int - 1
    ensures MinU(minW, winW) as int <= winW as int * 60 / 100 <= 800 ==> p.w as int == winW as int * 60 / 100
    ensures winW as int * 60 / 100 > 800 && minW <= 800 ==> p.w == 800
    ensures 3 * p.y as int <= winH as int < 3 * p.y as int + 3
    ensures if p.y as int + contentH as int + 4 <= winH as int then p.h as int == contentH as int + 4
            else p.y as int + p.h as int == winH as int
  {
    var floor := MinU(minW, winW);
    var ceiling := MaxU(MinU(MAX_WIDTH, winW), floor);
    var share := (winW as U64 * 60 / 100) as U32;
    var w := if share < floor then floor else if share > ceiling then ceiling else share;
    var x := (winW - w) / 2;
    var y := winH / 3;
    var h := MinU(contentH + 2 * BORDER, SaturatingSub(winH, y));
    ModalPanel(x, y, w, h, x + BORDER, y + BORDER, SaturatingSub(w, 2 * BORDER), SaturatingSub(h, 2 * BORDER))
  }

  // ---- filling a rectangle ----------------------------------------------------------------------

  datatype Rect = Rect(x: nat, y: nat, w: nat, h: nat)

  predicate Contains(r: Rect, row: nat, col: nat) {
    r.y <= row < r.y + r.h && r.x <= col < r.x + r.w
  }

  function RowIn(k: nat, bufW: nat): nat
    requires bufW > 0
  {
    k / bufW
  }

  function ColIn(k: nat, bufW: nat): nat
    requires bufW > 0
  {
    k % bufW
  }

  /** The row ends inside a buffer of `len` cells. */
  predicate Fits(len: nat, bufW: nat, row: nat) {
    (row + 1) * bufW <= len
  }

  /** Cell `k` of a buffer `bufW` wide is painted: in the rectangle, in the buffer, and in a row that fits it whole. */
  predicate Covered(len: nat, bufW: nat, bufH: nat, r: Rect, k: nat) {
    && bufW > 0
    && Contains(r, RowIn(k, bufW), ColIn(k, bufW))
    && RowIn(k, bufW) < bufH
    && Fits(len, bufW, RowIn(k, bufW))
  }

  function Filled(s: seq<U32>, bufW: nat, bufH: nat, r: Rect, color: U32): (t: seq<U32>)
    ensures |t| == |s|
  {
    seq(|s|, k requires 0 <= k < |s| => if Covered(|s|, bufW, bufH, r, k) then color else s[k])
  }

  lemma MulMonotone(a: nat, b: nat, m: nat)
    requires a <= b
    ensures a * m <= b * m
  {
  }

  /** A cell is in a row exactly when its index is in the row's range. */
  lemma RowOf(k: nat, m: nat, row: nat)
    requires m > 0
    ensures RowIn(k, m) == row <==> row * m <= k < row * m + m
    ensures RowIn(k, m) == row ==> ColIn(k, m) == k - row * m
  {
    var q := k / m;
    assert k == q * m + k % m;
    if q < row { MulMonotone(q + 1, row, m); }
    if q > row { MulMonotone(row + 1, q, m); }
  }

  /**
   The fill by rows and columns: a cell is painted exactly if it is in the rectangle, in the first `bufH`
   rows, and in a row the buffer holds whole; the rest of a buffer that ends mid-row is left alone.
  */
  lemma FillIsClipped(s: seq<U32>, bufW: nat, bufH: nat, r: Rect, color: U32, row: nat, col: nat)
    requires col < bufW && row * bufW + col < |s|
    ensures Filled(s, bufW, bufH, r, color)[row * bufW + col]
            == if row < bufH && row * bufW + bufW <= |s| && r.y <= row < r.y + r.h && r.x <= col < r.x + r.w
               then color else s[row * bufW + col]
  {
    RowOf(row * bufW + col, bufW, row);
    hide RowIn, ColIn;
  }

  method FillSlice(buf: array<U32>, lo: nat, hi: nat, color: U32)
    requires lo <= hi <= buf.Length
    modifies buf
    ensures forall k :: 0 <= k < buf.Length ==> buf[k] == if lo <= k < hi then color else old(buf[k])
  {
    var i := lo;
    while i < hi
      invariant lo <= i <= hi
      invariant forall k :: 0 <= k < buf.Length ==> buf[k] == if lo <= k < i then color else old(buf[k])
    {
      buf[i] := color;
      i := i + 1;
    }
  }

  /** Already painted once the rows before `row` are done. */
  predicate Done(len: nat, bufW: nat, bufH: nat, r: Rect, row: nat, k: nat) {
    Covered(len, bufW, bufH, r, k) && RowIn(k, bufW) < row
  }

  lemma RowAdvances(len: nat, bufW: nat, bufH: nat, r: Rect, row: nat, k: nat)
    requires bufW > 0 && r.y <= row < Min(r.y + r.h, bufH) && Fits(len, bufW, row)
    ensures Done(len, bufW, bufH, r, row + 1, k)
            <==> Done(len, bufW, bufH, r, row, k)
                 || row * bufW + r.x <= k < row * bufW + Min(r.x + r.w, bufW)
  {
    RowOf(k, bufW, row);
    hide RowIn, ColIn, Fits;
  }

  lemma RowsBeyondDoNotFit(len: nat, bufW: nat, bufH: nat, r: Rect, row: nat, k: nat)
    requires bufW > 0 && !Fits(len, bufW, row)
    ensures Covered(len, bufW, bufH, r, k) <==> Done(len, bufW, bufH, r, row, k)
  {
    if RowIn(k, bufW) >= row {
      MulMonotone(row + 1, RowIn(k, bufW) + 1, bufW);
    }
    hide RowIn, ColIn;
  }

  /** `fill_rect_u32` writes exactly the covered cells. */
  method FillRect(buf: array<U32>, bufW: nat, bufH: nat, r: Rect, color: U32)
    modifies buf
    ensures buf[..] == Filled(old(buf[..]), bufW, bufH, r, color)
  {
    ghost var was := buf[..];
    var x1 := Min(r.x + r.w, bufW);
    var y1 := Min(r.y + r.h, bufH);
    if r.x >= x1 || r.y >= y1 {
      return;
    }
    var row := r.y;
    while row < y1
      invariant r.y <= row <= y1
      invariant forall k :: 0 <= k < buf.Length ==>
        buf[k] == if Done(buf.Length, bufW, bufH, r, row, k) then color else was[k]
    {
      hide Done, Covered;
      var base := row * bufW;
      assert Fits(buf.Length, bufW, row) <==> base + bufW <= buf.Length;
      if base + bufW > buf.Length {
        forall k: nat | k < buf.Length
          ensures Covered(buf.Length, bufW, bufH, r, k) <==> Done(buf.Length, bufW, bufH, r, row, k) {
          RowsBeyondDoNotFit(buf.Length, bufW, bufH, r, row, k);
        }
        return;
      }
      forall k: nat | k < buf.Length
        ensures Done(buf.Length, bufW, bufH, r, row + 1, k)
                <==> Done(buf.Length, bufW, bufH, r, row, k) || base + r.x <= k < base + x1 {
        RowAdvances(buf.Length, bufW, bufH, r, row, k);
      }
      FillSlice(buf, base + r.x, base + x1, color);
      row := row + 1;
    }
  }

  // ---- a panel ----------------------------------------------------------------------------------

  function Border(p: ModalPanel): Rect {
    Rect(p.x as nat, p.y as nat, p.w as nat, p.h as nat)
  }

  function Inner(p: ModalPanel): Rect {
    Rect(p.innerX as nat, p.innerY as nat, p.innerW as nat, p.innerH as nat)
  }

  /** No further than the border's width from the panel's edge. */
  predicate OnRing(p: ModalPanel, row: nat, col: nat) {
    && Contains(Border(p), row, col)
    && (|| row < p.y as nat + 2 || row >= p.y as nat + p.h as nat - 2
        || col < p.x as nat + 2 || col >= p.x as nat + p.w as nat - 2)
  }

  /** A cell of the painted panel: the border's colour on the ring, the content's inside it. */
  function Painted(p: ModalPanel, row: nat, col: nat, edge: U32, bg: U32, was: U32): U32 {
    if OnRing(p, row, col) then edge else if Contains(Border(p), row, col) then bg else was
  }

  lemma RowInside(k: nat, m: nat, rows: nat)
    requires m > 0 && k < rows * m
    ensures RowIn(k, m) < rows && Fits(rows * m, m, RowIn(k, m))
  {
    var q := RowIn(k, m);
    RowOf(k, m, q);
    if q >= rows { MulMonotone(rows, q, m); }
    MulMonotone(q + 1, rows, m);
  }

  lemma FilledAt(s: seq<U32>, m: nat, rows: nat, r: Rect, color: U32, k: nat)
    requires m > 0 && |s| == rows * m && k < |s|
    ensures Filled(s, m, rows, r, color)[k] == if Contains(r, RowIn(k, m), ColIn(k, m)) then color else s[k]
  {
    RowInside(k, m, rows);
    hide RowIn, ColIn, Fits;
  }

  /** The content box is the panel less its ring; a panel less than four pixels across is all ring. */
  lemma InnerIsInsideRing(winW: U32, winH: U32, minW: U32, contentH: U32, row: nat, col: nat)
    requires contentH as int + 2 * BORDER as int < 0x1_0000_0000
    ensures var p := NewPanel(winW, winH, minW, contentH);
            Contains(Inner(p), row, col) <==> Contains(Border(p), row, col) && !OnRing(p, row, col)
  {
  }

  /**
   The border fill and then the content fill leave a ring of exactly two pixels, the content inside
   it, and every other cell as it was.
  */
  lemma PanelIsRing(s: seq<U32>, m: nat, rows: nat, p: ModalPanel, edge: U32, bg: U32, k: nat)
    requires m > 0 && |s| == rows * m && k < |s|
    requires Contains(Inner(p), RowIn(k, m), ColIn(k, m))
             <==> Contains(Border(p), RowIn(k, m), ColIn(k, m)) && !OnRing(p, RowIn(k, m), ColIn(k, m))
    ensures var t := Filled(Filled(s, m, rows, Border(p), edge), m, rows, Inner(p), bg);
            t[k] == Painted(p, RowIn(k, m), ColIn(k, m), edge, bg, s[k])
  {
    hide RowIn, ColIn, Covered, Contains, Inner, Border;
    FilledAt(s, m, rows, Border(p), edge, k);
    FilledAt(Filled(s, m, rows, Border(p), edge), m, rows, Inner(p), bg, k);
  }

  method PaintPanel(buf: array<U32>, winW: U32, winH: U32, minW: U32, contentH: U32, edge: U32, bg: U32)
    requires contentH as int + 2 * BORDER as int < 0x1_0000_0000
    requires winW > 0 && buf.Length == winH as nat * winW as nat
    modifies buf
    ensures var p := NewPanel(winW, winH, minW, contentH);
            forall k :: 0 <= k < buf.Length ==>
              buf[k] == Painted(p, RowIn(k, winW as nat), ColIn(k, winW as nat), edge, bg, old(buf[k]))
  {
    hide RowIn, ColIn, Covered, Contains, Inner, Border, OnRing, Painted, Filled;
    ghost var was := buf[..];
    var p := NewPanel(winW, winH, minW, contentH);
    var m, rows := winW as nat, winH as nat;
    FillRect(buf, m, rows, Border(p), edge);
    FillRect(buf, m, rows, Inner(p), bg);
    forall k: nat | k < buf.Length
      ensures buf[..][k] == Painted(p, RowIn(k, m), ColIn(k, m), edge, bg, was[k]) {
      InnerIsInsideRing(winW, winH, minW, contentH, RowIn(k, m), ColIn(k, m));
      PanelIsRing(was, m, rows, p, edge, bg, k);
    }
  }
}
