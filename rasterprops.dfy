/**
 * What the drawing operations of `Raster.Bitmap` promise, stated on the
 * functions that specify them: which cells a line or a rectangle covers,
 * the shape of the Bresenham path, and what the alpha fade does to the
 * bytes of a cell.
 */
module RasterProperties {
  import opened JsNumber
  import opened Raster

  /** A horizontal line covers exactly row `y`, columns min(x1,x2)..max(x1,x2), whatever the argument order. */
  lemma HorizontalCells(x1: int, x2: int, y: int, pitch: int, k: int)
    ensures var lo, hi := (if x1 < x2 then x1 else x2), (if x1 < x2 then x2 else x1);
      k in CellsOf(HorizontalPoints(x1, x2, y), pitch) <==> y * pitch + lo <= k <= y * pitch + hi
  {
    var pts := HorizontalPoints(x1, x2, y);
    var lo := if x1 < x2 then x1 else x2;
    CellsOfMember(pts, pitch, k);
    if y * pitch + lo <= k <= y * pitch + (if x1 < x2 then x2 else x1) {
      var j := k - y * pitch - lo;
      RowRunAt(lo, y, |pts|, j);
      assert Index(pts[j], pitch) == k;
    }
    if k in CellsOf(pts, pitch) {
      var j :| 0 <= j < |pts| && Index(pts[j], pitch) == k;
      RowRunAt(lo, y, |pts|, j);
    }
  }

  /** A vertical line covers exactly column `x`, rows min(y1,y2)..max(y1,y2). */
  lemma VerticalCells(x: int, y1: int, y2: int, pitch: int, k: int)
    ensures var lo, hi := (if y1 < y2 then y1 else y2), (if y1 < y2 then y2 else y1);
      k in CellsOf(VerticalPoints(x, y1, y2), pitch) <==> exists r :: lo <= r <= hi && k == r * pitch + x
  {
    var pts := VerticalPoints(x, y1, y2);
    var lo, hi := (if y1 < y2 then y1 else y2), (if y1 < y2 then y2 else y1);
    CellsOfMember(pts, pitch, k);
    if exists r :: lo <= r <= hi && k == r * pitch + x {
      var r :| lo <= r <= hi && k == r * pitch + x;
      ColumnRunAt(x, lo, |pts|, r - lo);
      assert Index(pts[r - lo], pitch) == k;
    }
    if k in CellsOf(pts, pitch) {
      var j :| 0 <= j < |pts| && Index(pts[j], pitch) == k;
      ColumnRunAt(x, lo, |pts|, j);
      assert lo <= lo + j <= hi && k == (lo + j) * pitch + x;
    }
  }

  /** The Bresenham path from (x, y) starts there, ends at the target and reaches it nowhere before the end. */
  lemma {:induction false} BresenhamEnds(x: int, y: int, err: int, x2: int, y2: int, dx: int, dy: int, sx: int, sy: int)
    requires BresenhamInv(x, y, err, x2, y2, dx, dy, sx, sy)
    ensures var p := BresenhamPath(x, y, err, x2, y2, dx, dy, sx, sy);
      0 < |p| && p[0] == (x, y) && p[|p| - 1] == (x2, y2) &&
      forall j :: 0 <= j < |p| - 1 ==> p[j] != (x2, y2)
    decreases Dist(x, x2) + Dist(y, y2)
  {
    if !(x == x2 && y == y2) {
      var p := BresenhamPath(x, y, err, x2, y2, dx, dy, sx, sy);
      BresenhamStep(x, y, err, x2, y2, dx, dy, sx, sy);
      var n := BresenhamNext(x, y, err, dx, dy, sx, sy);
      var q := BresenhamPath(n.0, n.1, n.2, x2, y2, dx, dy, sx, sy);
      BresenhamEnds(n.0, n.1, n.2, x2, y2, dx, dy, sx, sy);
      assert p == [(x, y)] + q;
      forall j | 0 < j < |p| - 1
        ensures p[j] != (x2, y2)
      {
        assert p[j] == q[j - 1];
      }
    }
  }

  /** Each step of the path moves each coordinate by at most one and never away from the target. */
  lemma {:induction false} BresenhamSteps(x: int, y: int, err: int, x2: int, y2: int, dx: int, dy: int, sx: int, sy: int)
    requires BresenhamInv(x, y, err, x2, y2, dx, dy, sx, sy)
    ensures var p := BresenhamPath(x, y, err, x2, y2, dx, dy, sx, sy);
      forall j :: 0 <= j < |p| - 1 ==>
        Dist(p[j + 1].0, p[j].0) <= 1 && Dist(p[j + 1].1, p[j].1) <= 1 &&
        Dist(p[j + 1].0, x2) <= Dist(p[j].0, x2) && Dist(p[j + 1].1, y2) <= Dist(p[j].1, y2)
    decreases Dist(x, x2) + Dist(y, y2)
  {
    if !(x == x2 && y == y2) {
      var p := BresenhamPath(x, y, err, x2, y2, dx, dy, sx, sy);
      BresenhamStep(x, y, err, x2, y2, dx, dy, sx, sy);
      var n := BresenhamNext(x, y, err, dx, dy, sx, sy);
      var q := BresenhamPath(n.0, n.1, n.2, x2, y2, dx, dy, sx, sy);
      BresenhamSteps(n.0, n.1, n.2, x2, y2, dx, dy, sx, sy);
      BresenhamEnds(n.0, n.1, n.2, x2, y2, dx, dy, sx, sy);
      assert p == [(x, y)] + q;
      forall j | 0 <= j < |p| - 1
        ensures Dist(p[j + 1].0, p[j].0) <= 1 && Dist(p[j + 1].1, p[j].1) <= 1 &&
          Dist(p[j + 1].0, x2) <= Dist(p[j].0, x2) && Dist(p[j + 1].1, y2) <= Dist(p[j].1, y2)
      {
        if j > 0 { assert p[j] == q[j - 1] && p[j + 1] == q[j]; }
        else { assert p[1] == q[0]; }
      }
    }
  }

  /** `p` is at most `rx` columns and `ry` rows away from (x2, y2). */
  predicate Within(p: Point, x2: int, y2: int, rx: int, ry: int)
  {
    Dist(p.0, x2) <= rx && Dist(p.1, y2) <= ry
  }

  /** The path stays inside the box between (x, y) and the target. */
  lemma {:induction false} BresenhamBox(x: int, y: int, err: int, x2: int, y2: int, dx: int, dy: int, sx: int, sy: int)
    requires BresenhamInv(x, y, err, x2, y2, dx, dy, sx, sy)
    ensures forall j :: 0 <= j < |BresenhamPath(x, y, err, x2, y2, dx, dy, sx, sy)| ==>
      Within(BresenhamPath(x, y, err, x2, y2, dx, dy, sx, sy)[j], x2, y2, Dist(x, x2), Dist(y, y2))
    decreases Dist(x, x2) + Dist(y, y2)
  {
    if !(x == x2 && y == y2) {
      var p := BresenhamPath(x, y, err, x2, y2, dx, dy, sx, sy);
      BresenhamStep(x, y, err, x2, y2, dx, dy, sx, sy);
      var n := BresenhamNext(x, y, err, dx, dy, sx, sy);
      var q := BresenhamPath(n.0, n.1, n.2, x2, y2, dx, dy, sx, sy);
      BresenhamBox(n.0, n.1, n.2, x2, y2, dx, dy, sx, sy);
      assert Dist(n.0, x2) <= Dist(x, x2) && Dist(n.1, y2) <= Dist(y, y2);
      assert p == [(x, y)] + q;
      forall j | 0 < j < |p|
        ensures Within(p[j], x2, y2, Dist(x, x2), Dist(y, y2))
      {
        assert p[j] == q[j - 1];
      }
    }
  }

  /** The general case of `drawLine` stores (x1, y1) first and (x2, y2) last, and the target nowhere before. */
  lemma LineEnds(x1: int, y1: int, x2: int, y2: int)
    requires x1 != x2 && y1 != y2
    ensures var p := LinePoints(x1, y1, x2, y2);
      0 < |p| && p[0] == (x1, y1) && p[|p| - 1] == (x2, y2) &&
      forall j :: 0 <= j < |p| - 1 ==> p[j] != (x2, y2)
  {
    BresenhamStart(x1, y1, x2, y2);
    var dx: int, dy: int := Dist(x1, x2), Dist(y1, y2);
    BresenhamEnds(x1, y1, dx - dy, x2, y2, dx, dy, (if x1 < x2 then 1 else -1), (if y1 < y2 then 1 else -1));
  }

  /** Each step of the general case moves each coordinate by at most one, never away from the target. */
  lemma LineSteps(x1: int, y1: int, x2: int, y2: int)
    requires x1 != x2 && y1 != y2
    ensures forall j :: 0 <= j < |LinePoints(x1, y1, x2, y2)| - 1 ==>
      var p := LinePoints(x1, y1, x2, y2);
      Dist(p[j + 1].0, p[j].0) <= 1 && Dist(p[j + 1].1, p[j].1) <= 1 &&
      Dist(p[j + 1].0, x2) <= Dist(p[j].0, x2) && Dist(p[j + 1].1, y2) <= Dist(p[j].1, y2)
  {
    BresenhamStart(x1, y1, x2, y2);
    var dx: int, dy: int := Dist(x1, x2), Dist(y1, y2);
    BresenhamSteps(x1, y1, dx - dy, x2, y2, dx, dy, (if x1 < x2 then 1 else -1), (if y1 < y2 then 1 else -1));
  }

  /** The general case stays inside the bounding box of its two end points. */
  lemma LineBox(x1: int, y1: int, x2: int, y2: int)
    requires x1 != x2 && y1 != y2
    ensures forall j :: 0 <= j < |LinePoints(x1, y1, x2, y2)| ==>
      Within(LinePoints(x1, y1, x2, y2)[j], x2, y2, Dist(x1, x2), Dist(y1, y2))
  {
    BresenhamStart(x1, y1, x2, y2);
    var dx: int, dy: int := Dist(x1, x2), Dist(y1, y2);
    BresenhamBox(x1, y1, dx - dy, x2, y2, dx, dy, (if x1 < x2 then 1 else -1), (if y1 < y2 then 1 else -1));
  }

  /** The diagonal from (0, 0) to (3, 3) is its four diagonal points. */
  lemma DiagonalExample()
    ensures LinePoints(0, 0, 3, 3) == [(0, 0), (1, 1), (2, 2), (3, 3)]
  {
    BresenhamStart(0, 0, 3, 3);
    MulIsProduct(3, 3);
    MulIsProduct(3, 2);
    MulIsProduct(3, 1);
    MulIsProduct(3, 0);
    assert BresenhamPath(3, 3, 0, 3, 3, 3, 3, 1, 1) == [(3, 3)];
    assert BresenhamPath(2, 2, 0, 3, 3, 3, 3, 1, 1) == [(2, 2), (3, 3)];
    assert BresenhamPath(1, 1, 0, 3, 3, 3, 3, 1, 1) == [(1, 1), (2, 2), (3, 3)];
  }

  /** The rectangle covers, in each of its `rows` rows r, the `w` cells from `o + r * pitch`. */
  lemma {:induction false} RectCellsMember(o: int, pitch: int, w: int, rows: int, k: int)
    ensures k in RectCells(o, pitch, w, rows) <==> exists r :: 0 <= r < rows && o + r * pitch <= k < o + r * pitch + w
    decreases rows
  {
    if rows > 0 {
      RectCellsMember(o + pitch, pitch, w, rows - 1, k);
      if k in RectCells(o + pitch, pitch, w, rows - 1) {
        var r :| 0 <= r < rows - 1 && o + pitch + r * pitch <= k < o + pitch + r * pitch + w;
        assert o + (r + 1) * pitch == o + pitch + r * pitch;
      }
      if exists r :: 0 <= r < rows && o + r * pitch <= k < o + r * pitch + w {
        var r :| 0 <= r < rows && o + r * pitch <= k < o + r * pitch + w;
        if r > 0 {
          assert o + pitch + (r - 1) * pitch == o + r * pitch;
        } else {
          assert InSpan(o, w, k);
        }
      }
    }
  }

  /** A rectangle drawn with `drawRect` changes exactly its cells, to the stored colour. */
  lemma RectSpecCells(s: seq<Cell>, pitch: int, x: real, y: real, w: real, h: real, color: int, k: int)
    requires 0 <= k < |s|
    ensures var o := Trunc(y) * pitch + Trunc(x);
      RectSpec(s, pitch, x, y, w, h, color)[k] ==
        if exists r :: 0 <= r < Trunc(h) && o + r * pitch <= k < o + r * pitch + Trunc(w)
        then Color2Bytes(color) else s[k]
  {
    RectCellsMember(Trunc(y) * pitch + Trunc(x), pitch, Trunc(w), Trunc(h), k);
  }

  /** `clear()` without a colour zeroes every cell. */
  lemma ClearDefault(s: seq<Cell>)
    ensures ClearSpec(s, 0) == seq(|s|, _ => 0)
  {
  }

  /** The colour `clear` stores has the bytes of `color` in reverse order. */
  lemma ClearBytes(s: seq<Cell>, color: int, i: int, k: nat)
    requires 0 <= i < |s| && k < 4
    ensures Byte(ClearSpec(s, color)[i], k) == Byte(color, 3 - k)
  {
    Color2BytesReversesBytes(color, k);
  }

  /** Putting `hi` in the top byte of a value below 2^24 keeps its three low bytes. */
  lemma TopByte(l: int, hi: int)
    requires 0 <= l < AlphaUnit && 0 <= hi < 256
    ensures Byte(l + hi * AlphaUnit, 0) == Byte(l, 0)
    ensures Byte(l + hi * AlphaUnit, 1) == Byte(l, 1)
    ensures Byte(l + hi * AlphaUnit, 2) == Byte(l, 2)
    ensures Byte(l + hi * AlphaUnit, 3) == hi
  {
    Unpack(l);
    DivModOf(l, 0x1_0000_0000, 0, l);
    DivModOf(l, AlphaUnit, 0, l);
    var b0, b1, b2 := Byte(l, 0), Byte(l, 1), Byte(l, 2);
    assert l == Pack(b0, b1, b2, 0);
    assert l + hi * AlphaUnit == Pack(b0, b1, b2, hi);
    PackBytes(b0, b1, b2, hi);
  }

  /** The cell a fade produces: the low three bytes of `c` with the new alpha above them. */
  lemma FadeLayout(c: Cell, alpha: real)
    ensures c == c % AlphaUnit + Byte(c, 3) * AlphaUnit
    ensures Fade(c, alpha) == c % AlphaUnit + FadedAlpha(Byte(c, 3), alpha) * AlphaUnit
  {
    AlphaIsTopByte(c);
  }

  /** The alpha byte `rectAlpha` leaves in a cell whose alpha byte is `a`. */
  function FadedAlpha(a: int, alpha: real): (b: int)
    ensures 0 <= b < 256
  {
    if a == 0 then 0 else Clamp8(Trunc(a as real * alpha))
  }

  /** The alpha weight of a cell is its byte +3. */
  lemma AlphaIsTopByte(c: Cell)
    ensures c / AlphaUnit == Byte(c, 3)
  {
    DivModOf(c, 0x1_0000_0000, 0, c);
  }

  /** The fade never writes the R, G and B bytes (bytes 0..2). */
  lemma FadeKeepsColour(c: Cell, alpha: real, k: nat)
    requires k < 3
    ensures Byte(Fade(c, alpha), k) == Byte(c, k)
  {
    FadeLayout(c, alpha);
    TopByte(c % AlphaUnit, Byte(c, 3));
    TopByte(c % AlphaUnit, FadedAlpha(Byte(c, 3), alpha));
  }

  /** A nonzero alpha `a` becomes the clamped store of `(a * alpha) | 0`; a zero one stays zero. */
  lemma FadeAlpha(c: Cell, alpha: real)
    ensures Byte(Fade(c, alpha), 3) == if Byte(c, 3) == 0 then 0 else Clamp8(Trunc(Byte(c, 3) as real * alpha))
  {
    FadeLayout(c, alpha);
    TopByte(c % AlphaUnit, FadedAlpha(Byte(c, 3), alpha));
  }

  /** A cell with zero alpha is left as it is. */
  lemma FadeTransparent(c: Cell, alpha: real)
    requires Byte(c, 3) == 0
    ensures Fade(c, alpha) == c
  {
    AlphaIsTopByte(c);
  }

  /** With a factor in [0, 1] the faded alpha is `(a * alpha) | 0`, never above `a`. */
  lemma FadeDims(c: Cell, alpha: real)
    requires 0.0 <= alpha <= 1.0 && Byte(c, 3) != 0
    ensures Byte(Fade(c, alpha), 3) == Trunc(Byte(c, 3) as real * alpha) <= Byte(c, 3)
  {
    FadeAlpha(c, alpha);
    ScaledAlpha(Byte(c, 3), alpha);
  }

  lemma ScaledAlpha(a: int, alpha: real)
    requires 0 <= a < 256 && 0.0 <= alpha <= 1.0
    ensures Clamp8(Trunc(a as real * alpha)) == Trunc(a as real * alpha) <= a
  {
    var p := a as real * alpha;
    ScaleDown(a as real, alpha, p);
    TruncWithin(p, a);
  }

  /** Row `o` and every later row lie at or after `o` when rows do not run backwards. */
  lemma {:induction false} RectCellsFrom(o: int, pitch: int, w: int, rows: int, k: int)
    requires 0 <= pitch
    requires k in RectCells(o, pitch, w, rows)
    ensures o <= k
    decreases rows
  {
    if k !in SpanCells(o, w) {
      RectCellsFrom(o + pitch, pitch, w, rows - 1, k);
    }
  }

  /**
   * When rows are no wider than the pitch they do not overlap, and
   * `rectAlpha` fades every cell of the rectangle exactly once and leaves
   * every other cell alone.
   */
  lemma {:induction false} FadeRowsCells(s: seq<Cell>, o: int, pitch: int, w: int, rows: int, alpha: real, k: int)
    requires 0 <= w <= pitch && 0 <= k < |s|
    ensures FadeRows(s, o, pitch, w, rows, alpha)[k] ==
      if k in RectCells(o, pitch, w, rows) then Fade(s[k], alpha) else s[k]
    decreases rows
  {
    if rows > 0 {
      var t := FadeSpan(s, o, w, alpha);
      FadeRowsCells(t, o + pitch, pitch, w, rows - 1, alpha, k);
      if k in RectCells(o + pitch, pitch, w, rows - 1) {
        RectCellsFrom(o + pitch, pitch, w, rows - 1, k);
        assert !InSpan(o, w, k);
      }
    }
  }

  /** `rectAlpha(x, y, w, h, alpha)` on a surface at least `w` wide, cell by cell. */
  lemma FadeSpecCells(s: seq<Cell>, pitch: int, x: real, y: real, w: real, h: real, alpha: real, k: int)
    requires 0 <= Trunc(w) <= pitch && 0 <= k < |s|
    ensures var o := Trunc(y) * pitch + Trunc(x);
      FadeSpec(s, pitch, x, y, w, h, alpha)[k] ==
        if exists r :: 0 <= r < Trunc(h) && o + r * pitch <= k < o + r * pitch + Trunc(w)
        then Fade(s[k], alpha) else s[k]
  {
    var o := Trunc(y) * pitch + Trunc(x);
    FadeRowsCells(s, o, pitch, Trunc(w), Trunc(h), alpha, k);
    RectCellsMember(o, pitch, Trunc(w), Trunc(h), k);
  }
}
