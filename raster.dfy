/**
 * The pixel buffer of the chart (src/bitmap.js): a `width * height` array of
 * 32-bit cells, row after row.  The buffer is read as little-endian bytes,
 * so the in-memory bytes R, G, B, A of a cell are its bytes 0..3 from the
 * least significant one; byte +3, the alpha byte, is the top byte.
 *
 * Stores through a JavaScript typed array outside the buffer are ignored and
 * reads there give `undefined`; the model guards every access the same way,
 * so no drawing operation needs its arguments inside the surface.
 */
module Raster {
  import opened JsNumber

  type Cell = c: int | 0 <= c < 0x1_0000_0000

  /** A pixel position (x, y). */
  type Point = (int, int)

  /** Weight of the alpha byte (byte +3) in a cell. */
  const AlphaUnit: int := 0x100_0000

  /** The value whose bytes, from the least significant one, are b0, b1, b2, b3. */
  function Pack(b0: int, b1: int, b2: int, b3: int): int
  {
    b0 + b1 * 0x100 + b2 * 0x1_0000 + b3 * 0x100_0000
  }

  /** Byte k (0 = least significant) of the 32-bit pattern of `c`. */
  function Byte(c: int, k: nat): (b: int)
    requires k < 4
    ensures 0 <= b < 256
  {
    var u := c % 0x1_0000_0000;
    if k == 0 then u % 0x100
    else if k == 1 then u / 0x100 % 0x100
    else if k == 2 then u / 0x1_0000 % 0x100
    else u / 0x100_0000 % 0x100
  }

  /**
   * `#color2bytes`: the external colour 0xRRGGBBAA, taken modulo 2^32 as
   * ToInt32 does, rearranged into the cell whose in-memory bytes are
   * R, G, B, A, i.e. the value `A<<24 | B<<16 | G<<8 | R` as the
   * Uint32Array store reads it (the four bytes occupy disjoint bits, so the
   * `|` of the shifted bytes is their weighted sum).
   */
  function Color2Bytes(color: int): Cell
  {
    var u := color % 0x1_0000_0000;
    var r := u / 0x100_0000 % 0x100;
    var g := u / 0x1_0000 % 0x100;
    var b := u / 0x100 % 0x100;
    var a := u % 0x100;
    Pack(r, g, b, a)
  }

  lemma PackBytes(b0: int, b1: int, b2: int, b3: int)
    requires 0 <= b0 < 256 && 0 <= b1 < 256 && 0 <= b2 < 256 && 0 <= b3 < 256
    ensures 0 <= Pack(b0, b1, b2, b3) < 0x1_0000_0000
    ensures Byte(Pack(b0, b1, b2, b3), 0) == b0
    ensures Byte(Pack(b0, b1, b2, b3), 1) == b1
    ensures Byte(Pack(b0, b1, b2, b3), 2) == b2
    ensures Byte(Pack(b0, b1, b2, b3), 3) == b3
  {
    var v := Pack(b0, b1, b2, b3);
    assert v % 0x1_0000_0000 == v by { DivModOf(v, 0x1_0000_0000, 0, v); }
    DivModOf(v, 0x100, b1 + b2 * 0x100 + b3 * 0x1_0000, b0);
    DivModOf(v, 0x1_0000, b2 + b3 * 0x100, b0 + b1 * 0x100);
    DivModOf(v, 0x100_0000, b3, b0 + b1 * 0x100 + b2 * 0x1_0000);
    DivModOf(b1 + b2 * 0x100 + b3 * 0x1_0000, 0x100, b2 + b3 * 0x100, b1);
    DivModOf(b2 + b3 * 0x100, 0x100, b3, b2);
    DivModOf(b3, 0x100, 0, b3);
  }

  /** Euclidean division is determined by quotient and remainder. */
  lemma DivModOf(v: int, d: int, q: int, r: int)
    requires 0 < d && 0 <= r < d && v == q * d + r
    ensures v / d == q && v % d == r
  {
    var k := q - v / d;
    assert k * d == v % d - r;
    if k > 0 {
      MulAtLeast(k, d);
    } else if k < 0 {
      MulAtLeast(-k, d);
    }
  }

  lemma MulAtLeast(k: int, d: int)
    requires 1 <= k && 0 < d
    ensures d <= k * d
  {
    assert k * d == d + (k - 1) * d;
  }

  /** Every 32-bit value is the packing of its own four bytes. */
  lemma Unpack(u: int)
    requires 0 <= u < 0x1_0000_0000
    ensures u == Pack(Byte(u, 0), Byte(u, 1), Byte(u, 2), Byte(u, 3))
  {
    DivModOf(u, 0x1_0000_0000, 0, u);
    var q1 := u / 0x100;
    var q2 := q1 / 0x100;
    var q3 := q2 / 0x100;
    DivModOf(u, 0x1_0000, q2, (q1 % 0x100) * 0x100 + u % 0x100);
    DivModOf(u, 0x100_0000, q3, (q2 % 0x100) * 0x1_0000 + (q1 % 0x100) * 0x100 + u % 0x100);
    assert u == q3 * 0x100_0000 + (q2 % 0x100) * 0x1_0000 + (q1 % 0x100) * 0x100 + u % 0x100;
    DivModOf(q3, 0x100, 0, q3);
  }

  /** The bytes of `#color2bytes(c)` are those of `c` in reverse order. */
  lemma {:induction false} Color2BytesReversesBytes(color: int, k: nat)
    requires k < 4
    ensures Byte(Color2Bytes(color), k) == Byte(color, 3 - k)
  {
    PackBytes(Byte(color, 3), Byte(color, 2), Byte(color, 1), Byte(color, 0));
  }

  lemma Color2BytesIsPack(color: int)
    ensures Color2Bytes(color) == Pack(Byte(color, 3), Byte(color, 2), Byte(color, 1), Byte(color, 0))
  {
  }

  /** Applying `#color2bytes` twice gives back the colour (as a 32-bit pattern). */
  lemma {:induction false} Color2BytesInvolution(color: int)
    ensures Color2Bytes(Color2Bytes(color)) == color % 0x1_0000_0000
  {
    var u := color % 0x1_0000_0000;
    var b0, b1, b2, b3 := Byte(color, 0), Byte(color, 1), Byte(color, 2), Byte(color, 3);
    var c := Color2Bytes(color);
    Color2BytesIsPack(color);
    PackBytes(b3, b2, b1, b0);
    Color2BytesIsPack(c);
    assert Color2Bytes(c) == Pack(b0, b1, b2, b3);
    DivModOf(u, 0x1_0000_0000, 0, u);
    assert Byte(u, 0) == b0 && Byte(u, 1) == b1 && Byte(u, 2) == b2 && Byte(u, 3) == b3;
    Unpack(u);
  }

  /**
   * The alpha byte (byte +3) of the stored cell is the low byte AA of the
   * colour 0xRRGGBBAA: what `rectAlpha` tests is the colour's own alpha.
   */
  lemma {:induction false} Color2BytesAlpha(color: int)
    ensures Color2Bytes(color) / AlphaUnit == color % 0x100
  {
    PackBytes(Byte(color, 3), Byte(color, 2), Byte(color, 1), Byte(color, 0));
    ModOfMod(color);
  }

  lemma ModOfMod(c: int)
    ensures c % 0x1_0000_0000 % 0x100 == c % 0x100
  {
    DivModOf(c, 0x100, (c / 0x1_0000_0000) * 0x100_0000 + (c % 0x1_0000_0000) / 0x100, c % 0x1_0000_0000 % 0x100);
  }

  // ---------------------------------------------------------------------
  // What the drawing operations do to the buffer, as functions of its cells
  // ---------------------------------------------------------------------

  /** `s` with every cell whose index lies in `cells` set to `c`; indices outside `s` are ignored. */
  function Paint(s: seq<Cell>, cells: set<int>, c: Cell): seq<Cell>
  {
    seq(|s|, i requires 0 <= i < |s| => if i in cells then c else s[i])
  }

  /** The cell index of a point in a buffer whose rows are `pitch` cells long. */
  function Index(p: Point, pitch: int): int
  {
    p.1 * pitch + p.0
  }

  /** The cell indices of a sequence of points. */
  function CellsOf(pts: seq<Point>, pitch: int): set<int>
  {
    if pts == [] then {} else {Index(pts[0], pitch)} + CellsOf(pts[1..], pitch)
  }

  lemma {:induction false} CellsOfMember(pts: seq<Point>, pitch: int, k: int)
    ensures k in CellsOf(pts, pitch) <==> exists j :: 0 <= j < |pts| && Index(pts[j], pitch) == k
  {
    if pts != [] {
      CellsOfMember(pts[1..], pitch, k);
      if k in CellsOf(pts[1..], pitch) {
        var j :| 0 <= j < |pts[1..]| && Index(pts[1..][j], pitch) == k;
        assert Index(pts[j + 1], pitch) == k;
      }
      if exists j :: 0 <= j < |pts| && Index(pts[j], pitch) == k {
        var j :| 0 <= j < |pts| && Index(pts[j], pitch) == k;
        if j > 0 {
          assert Index(pts[1..][j - 1], pitch) == k;
        }
      }
    }
  }

  /** Storing the point at `i` moves it from the points still to go to the cells done. */
  lemma CellsOfAdvance(pts: seq<Point>, i: int, pitch: int, done: set<int>)
    requires 0 <= i < |pts|
    ensures (done + {Index(pts[i], pitch)}) + CellsOf(pts[i + 1..], pitch) == done + CellsOf(pts[i..], pitch)
  {
    assert pts[i..][1..] == pts[i + 1..];
  }

  function Dist(a: int, b: int): nat
  {
    if a <= b then b - a else a - b
  }

  /** `n` points of row `y` from column `x` rightwards. */
  function RowRun(x: int, y: int, n: nat): (r: seq<Point>)
    ensures |r| == n
    decreases n
  {
    if n == 0 then [] else [(x, y)] + RowRun(x + 1, y, n - 1)
  }

  /** `n` points of column `x` from row `y` downwards. */
  function ColumnRun(x: int, y: int, n: nat): (r: seq<Point>)
    ensures |r| == n
    decreases n
  {
    if n == 0 then [] else [(x, y)] + ColumnRun(x, y + 1, n - 1)
  }

  lemma {:induction false} RowRunAt(x: int, y: int, n: nat, i: int)
    requires 0 <= i < n
    ensures RowRun(x, y, n)[i] == (x + i, y)
    decreases n
  {
    if i > 0 {
      RowRunAt(x + 1, y, n - 1, i - 1);
    }
  }

  lemma {:induction false} ColumnRunAt(x: int, y: int, n: nat, i: int)
    requires 0 <= i < n
    ensures ColumnRun(x, y, n)[i] == (x, y + i)
    decreases n
  {
    if i > 0 {
      ColumnRunAt(x, y + 1, n - 1, i - 1);
    }
  }

  /** The points of the span `y1 == y2`: row y1, columns min(x1,x2)..max(x1,x2). */
  function HorizontalPoints(x1: int, x2: int, y: int): seq<Point>
  {
    var s := if x1 < x2 then x1 else x2;
    var e := if x1 < x2 then x2 else x1;
    RowRun(s, y, e - s + 1)
  }

  /** The points of the span `x1 == x2`: column x, rows min(y1,y2)..max(y1,y2). */
  function VerticalPoints(x: int, y1: int, y2: int): seq<Point>
  {
    var s := if y1 < y2 then y1 else y2;
    var e := if y1 < y2 then y2 else y1;
    ColumnRun(x, s, e - s + 1)
  }

  /**
   * What the Bresenham loop keeps: (x, y) has not passed the target in
   * either direction, and with X, Y the distances still to go the error
   * term is `dx - dy + dy*X - dx*Y` (it starts at `dx - dy`, each x step
   * subtracts dy and each y step adds dx).
   */
  ghost predicate BresenhamInv(x: int, y: int, err: int, x2: int, y2: int, dx: int, dy: int, sx: int, sy: int)
  {
    0 < dx && 0 < dy && (sx == 1 || sx == -1) && (sy == 1 || sy == -1) &&
    (if sx == 1 then x <= x2 else x2 <= x) &&
    (if sy == 1 then y <= y2 else y2 <= y) &&
    Dist(x, x2) <= dx && Dist(y, y2) <= dy &&
    err == dx - dy + Mul(dy, Dist(x, x2)) - Mul(dx, Dist(y, y2))
  }

  /**
   * `a * n`, written as a recursive function so that the loop that keeps
   * `BresenhamInv` reasons about it without nonlinear arithmetic; only
   * `MulIsProduct` connects it to `*`.
   */
  function Mul(a: int, n: nat): int
  {
    if n == 0 then 0 else a + Mul(a, n - 1)
  }

  lemma {:induction false} MulIsProduct(a: int, n: nat)
    ensures Mul(a, n) == a * n
  {
    if n > 0 {
      MulIsProduct(a, n - 1);
    }
  }

  /** One iteration of the loop after the store: the position and error term it moves to. */
  function BresenhamNext(x: int, y: int, err: int, dx: int, dy: int, sx: int, sy: int): (int, int, int)
  {
    var e2 := 2 * err;  // err << 1
    var stepX, stepY := e2 > -dy, e2 < dx;
    (if stepX then x + sx else x,
     if stepY then y + sy else y,
     err - (if stepX then dy else 0) + (if stepY then dx else 0))
  }

  /** An iteration keeps the relation, steps each coordinate by at most one toward the target, and makes progress. */
  lemma BresenhamStep(x: int, y: int, err: int, x2: int, y2: int, dx: int, dy: int, sx: int, sy: int)
    requires BresenhamInv(x, y, err, x2, y2, dx, dy, sx, sy)
    requires x != x2 || y != y2
    ensures var (nx, ny, ne) := BresenhamNext(x, y, err, dx, dy, sx, sy);
      BresenhamInv(nx, ny, ne, x2, y2, dx, dy, sx, sy) &&
      Dist(nx, x) <= 1 && Dist(ny, y) <= 1 &&
      Dist(nx, x2) <= Dist(x, x2) && Dist(ny, y2) <= Dist(y, y2) &&
      Dist(nx, x2) + Dist(ny, y2) < Dist(x, x2) + Dist(y, y2)
  {
    var rx, ry := Dist(x, x2), Dist(y, y2);
    MulIsProduct(dy, rx);
    MulIsProduct(dx, ry);
    var e2 := 2 * err;
    var xs, ys := e2 > -dy, e2 < dx;
    if rx == 0 {
      NoStepAtTarget(dx, dy, ry, dx - err);
    }
    if ry == 0 {
      NoStepAtTarget(dy, dx, rx, err + dy);
    }
    var a := if xs then 1 else 0;
    var b := if ys then 1 else 0;
    ErrorAfterStep(dx, dy, rx, ry, err, a, b);
    MulIsProduct(dy, rx - a);
    MulIsProduct(dx, ry - b);
  }

  /** On the target column (row) no x (y) step is taken while the other coordinate still has to move. */
  lemma NoStepAtTarget(d: int, e: int, r: int, t: int)
    requires 0 < d && 0 < e && 1 <= r && t == e + d * r
    ensures 2 * (d - t) <= -e
  {
    MulAtLeast(r, d);
  }

  lemma ErrorAfterStep(dx: int, dy: int, rx: int, ry: int, err: int, a: int, b: int)
    requires err == dx - dy + dy * rx - dx * ry
    ensures err - a * dy + b * dx == dx - dy + dy * (rx - a) - dx * (ry - b)
  {
  }

  /** The points the general-case loop stores, from (x, y) on. */
  function BresenhamPath(x: int, y: int, err: int, x2: int, y2: int, dx: int, dy: int, sx: int, sy: int): seq<Point>
    requires BresenhamInv(x, y, err, x2, y2, dx, dy, sx, sy)
    decreases Dist(x, x2) + Dist(y, y2)
  {
    if x == x2 && y == y2 then [(x, y)]
    else
      BresenhamStep(x, y, err, x2, y2, dx, dy, sx, sy);
      var (nx, ny, ne) := BresenhamNext(x, y, err, dx, dy, sx, sy);
      [(x, y)] + BresenhamPath(nx, ny, ne, x2, y2, dx, dy, sx, sy)
  }

  /** The path from a point that is not the target is that point followed by the path from the next one. */
  lemma BresenhamAdvance(x: int, y: int, err: int, x2: int, y2: int, dx: int, dy: int, sx: int, sy: int,
                         pitch: int, done: set<int>)
      returns (nx: int, ny: int, ne: int)
    requires BresenhamInv(x, y, err, x2, y2, dx, dy, sx, sy)
    requires x != x2 || y != y2
    ensures (nx, ny, ne) == BresenhamNext(x, y, err, dx, dy, sx, sy)
    ensures nx == if 2 * err > -dy then x + sx else x
    ensures ny == if 2 * err < dx then y + sy else y
    ensures ne == err - (if 2 * err > -dy then dy else 0) + (if 2 * err < dx then dx else 0)
    ensures BresenhamInv(nx, ny, ne, x2, y2, dx, dy, sx, sy)
    ensures Dist(nx, x2) + Dist(ny, y2) < Dist(x, x2) + Dist(y, y2)
    ensures BresenhamPath(x, y, err, x2, y2, dx, dy, sx, sy)[1..] == BresenhamPath(nx, ny, ne, x2, y2, dx, dy, sx, sy)
    ensures (done + {y * pitch + x}) + CellsOf(BresenhamPath(nx, ny, ne, x2, y2, dx, dy, sx, sy), pitch)
      == done + CellsOf(BresenhamPath(x, y, err, x2, y2, dx, dy, sx, sy), pitch)
  {
    BresenhamStep(x, y, err, x2, y2, dx, dy, sx, sy);
    nx, ny, ne := BresenhamNext(x, y, err, dx, dy, sx, sy).0, BresenhamNext(x, y, err, dx, dy, sx, sy).1,
      BresenhamNext(x, y, err, dx, dy, sx, sy).2;
  }

  /** At the target the path is the target alone. */
  lemma BresenhamArrive(x: int, y: int, err: int, dx: int, dy: int, sx: int, sy: int, pitch: int, done: set<int>)
    requires BresenhamInv(x, y, err, x, y, dx, dy, sx, sy)
    ensures BresenhamPath(x, y, err, x, y, dx, dy, sx, sy) == [(x, y)]
    ensures done + {y * pitch + x} == done + CellsOf(BresenhamPath(x, y, err, x, y, dx, dy, sx, sy), pitch)
  {
  }

  /** The points `drawLine` stores, on truncated coordinates. */
  function LinePoints(x1: int, y1: int, x2: int, y2: int): seq<Point>
  {
    if y1 == y2 then HorizontalPoints(x1, x2, y1)
    else if x1 == x2 then VerticalPoints(x1, y1, y2)
    else
      var dx, dy := Dist(x1, x2), Dist(y1, y2);
      var sx := if x1 < x2 then 1 else -1;
      var sy := if y1 < y2 then 1 else -1;
      MulIsProduct(dy, dx);
      MulIsProduct(dx, dy);
      BresenhamPath(x1, y1, dx - dy, x2, y2, dx, dy, sx, sy)
  }

  /** The general case starts the loop in a state that keeps `BresenhamInv`. */
  lemma BresenhamStart(x1: int, y1: int, x2: int, y2: int)
    requires x1 != x2 && y1 != y2
    ensures var dx, dy := Dist(x1, x2), Dist(y1, y2);
      var sx, sy := (if x1 < x2 then 1 else -1), (if y1 < y2 then 1 else -1);
      BresenhamInv(x1, y1, dx - dy, x2, y2, dx, dy, sx, sy) &&
      LinePoints(x1, y1, x2, y2) == BresenhamPath(x1, y1, dx - dy, x2, y2, dx, dy, sx, sy)
  {
    MulIsProduct(Dist(y1, y2), Dist(x1, x2));
    MulIsProduct(Dist(x1, x2), Dist(y1, y2));
  }

  /** The cells [o, o + n). */
  function SpanCells(o: int, n: int): set<int>
  {
    set k | o <= k < o + n && InSpan(o, n, k)
  }

  predicate InSpan(o: int, n: int, k: int)
  {
    o <= k < o + n
  }

  /** The cells of `rows` rows of `w` cells, the first starting at `o`, each next one `pitch` further. */
  function RectCells(o: int, pitch: int, w: int, rows: int): set<int>
    decreases rows
  {
    if rows <= 0 then {} else SpanCells(o, w) + RectCells(o + pitch, pitch, w, rows - 1)
  }

  /** The alpha fade of one cell: a nonzero alpha byte `a` becomes `(a * alpha) | 0` as a clamped byte store. */
  function Fade(c: Cell, alpha: real): Cell
  {
    var a := c / AlphaUnit;
    if a == 0 then c else c % AlphaUnit + Clamp8(Trunc(a as real * alpha)) * AlphaUnit
  }

  /** One row of `rectAlpha`: the cells [o, o + n) faded. */
  function FadeSpan(s: seq<Cell>, o: int, n: int, alpha: real): (r: seq<Cell>)
    ensures |r| == |s|
  {
    seq(|s|, i requires 0 <= i < |s| => if o <= i < o + n then Fade(s[i], alpha) else s[i])
  }

  /** `rectAlpha`'s rows, one after the other (a cell two rows share is faded twice, as in the source). */
  function FadeRows(s: seq<Cell>, o: int, pitch: int, w: int, rows: int, alpha: real): (r: seq<Cell>)
    ensures |r| == |s|
    decreases rows
  {
    if rows <= 0 then s else FadeRows(FadeSpan(s, o, w, alpha), o + pitch, pitch, w, rows - 1, alpha)
  }

  lemma PaintTwice(s: seq<Cell>, a: set<int>, b: set<int>, c: Cell)
    ensures Paint(Paint(s, a, c), b, c) == Paint(s, a + b, c)
  {
  }

  /** Painting the first row, then the others, paints the rectangle. */
  lemma RectRowDone(s: seq<Cell>, o: int, pitch: int, w: int, rows: int, c: Cell)
    requires 0 < rows
    ensures Paint(Paint(s, SpanCells(o, w), c), RectCells(o + pitch, pitch, w, rows - 1), c)
         == Paint(s, RectCells(o, pitch, w, rows), c)
  {
  }

  lemma PaintNothing(s: seq<Cell>, none: set<int>, c: Cell)
    requires none == {}
    ensures Paint(s, none, c) == s
  {
  }

  /** `drawLine(x1, y1, x2, y2, color)` on a buffer whose rows are `pitch` cells long. */
  function LineSpec(s: seq<Cell>, pitch: int, x1: real, y1: real, x2: real, y2: real, color: int): seq<Cell>
  {
    Paint(s, CellsOf(LinePoints(Trunc(x1), Trunc(y1), Trunc(x2), Trunc(y2)), pitch), Color2Bytes(color))
  }

  /** `drawRect(x, y, w, h, color)`. */
  function RectSpec(s: seq<Cell>, pitch: int, x: real, y: real, w: real, h: real, color: int): seq<Cell>
  {
    Paint(s, RectCells(Trunc(y) * pitch + Trunc(x), pitch, Trunc(w), Trunc(h)), Color2Bytes(color))
  }

  /** `clear(color)`. */
  function ClearSpec(s: seq<Cell>, color: int): seq<Cell>
  {
    seq(|s|, _ => Color2Bytes(color))
  }

  /** `rectAlpha(x, y, w, h, alpha)`. */
  function FadeSpec(s: seq<Cell>, pitch: int, x: real, y: real, w: real, h: real, alpha: real): seq<Cell>
  {
    FadeRows(s, Trunc(y) * pitch + Trunc(x), pitch, Trunc(w), Trunc(h), alpha)
  }

  // ---------------------------------------------------------------------
  // The buffer
  // ---------------------------------------------------------------------

  class Bitmap {
    const width: int
    const height: int
    /** The Uint32Array view of the ImageData buffer, row after row. */
    const data: array<Cell>

    /**
     * The shape of the buffer.  `width`, `height` and `data` are constants,
     * so once the constructor establishes it no method can break it; the
     * drawing methods therefore neither require nor restate it.
     */
    ghost predicate Valid()
    {
      0 < width && 0 < height && data.Length == width * height
    }

    /** A transparent black `width x height` buffer. */
    constructor (width: int, height: int)
      requires 0 < width && 0 < height
      ensures this.width == width && this.height == height
      ensures fresh(data) && Valid()
      ensures data[..] == seq(width * height, _ => 0)
    {
      this.width := width;
      this.height := height;
      data := new Cell[width * height](_ => 0);
    }

    /** The store `img[o] = c` of a Uint32Array: ignored outside the buffer. */
    method Store(o: int, c: Cell)
      modifies data
      ensures data[..] == Paint(old(data[..]), {o}, c)
    {
      if 0 <= o < data.Length {
        data[o] := c;
      }
    }

    method DrawLine(x1: real, y1: real, x2: real, y2: real, color: int := 0xFF)
      modifies data
      ensures data[..] == LineSpec(old(data[..]), width, x1, y1, x2, y2, color)
    {
      var ix1, iy1, ix2, iy2 := Trunc(x1), Trunc(y1), Trunc(x2), Trunc(y2);
      var c := Color2Bytes(color);
      if iy1 == iy2 {
        DrawRow(ix1, ix2, iy1, c);
      } else if ix1 == ix2 {
        DrawColumn(ix1, iy1, iy2, c);
      } else {
        DrawBresenham(ix1, iy1, ix2, iy2, c);
      }
    }

    /** The `y1 == y2` case of `drawLine`. */
    method DrawRow(x1: int, x2: int, y: int, c: Cell)
      modifies data
      ensures data[..] == Paint(old(data[..]), CellsOf(HorizontalPoints(x1, x2, y), width), c)
    {
      var pitch := width;
      ghost var pts := HorizontalPoints(x1, x2, y);
      ghost var done: set<int> := {};
      var s := if x1 < x2 then x1 else x2;
      var e := if x1 < x2 then x2 else x1;
      var w := e - s;
      var o := y * pitch + s;
      var i := 0;
      while i <= w
        invariant 0 <= i <= w + 1 && o == y * pitch + s + i
        invariant done + CellsOf(pts[i..], pitch) == CellsOf(pts, pitch)
        invariant data[..] == Paint(old(data[..]), done, c)
      {
        Store(o, c);
        PaintTwice(old(data[..]), done, {o}, c);
        RowRunAt(s, y, w + 1, i);
        CellsOfAdvance(pts, i, pitch, done);
        done := done + {o};
        i, o := i + 1, o + 1;
      }
    }

    /** The `x1 == x2`, `y1 != y2` case of `drawLine`. */
    method DrawColumn(x: int, y1: int, y2: int, c: Cell)
      modifies data
      ensures data[..] == Paint(old(data[..]), CellsOf(VerticalPoints(x, y1, y2), width), c)
    {
      var pitch := width;
      ghost var pts := VerticalPoints(x, y1, y2);
      ghost var done: set<int> := {};
      var s := if y1 < y2 then y1 else y2;
      var e := if y1 < y2 then y2 else y1;
      var h := e - s;
      var o := s * pitch + x;
      var i := 0;
      while i <= h
        invariant 0 <= i <= h + 1 && o == (s + i) * pitch + x
        invariant done + CellsOf(pts[i..], pitch) == CellsOf(pts, pitch)
        invariant data[..] == Paint(old(data[..]), done, c)
      {
        Store(o, c);
        PaintTwice(old(data[..]), done, {o}, c);
        ColumnRunAt(x, s, h + 1, i);
        assert Index(pts[i], pitch) == o;
        CellsOfAdvance(pts, i, pitch, done);
        done := done + {o};
        assert o + pitch == (s + i + 1) * pitch + x;
        i, o := i + 1, o + pitch;
      }
    }

    /** The general case of `drawLine`: the Bresenham loop. */
    method DrawBresenham(x1: int, y1: int, x2: int, y2: int, c: Cell)
      requires x1 != x2 && y1 != y2
      modifies data
      ensures data[..] == Paint(old(data[..]), CellsOf(LinePoints(x1, y1, x2, y2), width), c)
    {
      var pitch := width;
      var dx := if x2 < x1 then x1 - x2 else x2 - x1;
      var dy := if y2 < y1 then y1 - y2 else y2 - y1;
      var sx := if x1 < x2 then 1 else -1;
      var sy := if y1 < y2 then 1 else -1;
      var err := dx - dy;
      var x, y := x1, y1;
      BresenhamStart(x1, y1, x2, y2);
      ghost var done: set<int> := {};
      while true
        invariant BresenhamInv(x, y, err, x2, y2, dx, dy, sx, sy)
        invariant done + CellsOf(BresenhamPath(x, y, err, x2, y2, dx, dy, sx, sy), pitch)
          == CellsOf(LinePoints(x1, y1, x2, y2), pitch)
        invariant data[..] == Paint(old(data[..]), done, c)
        decreases Dist(x, x2) + Dist(y, y2)
      {
        var o := y * pitch + x;
        Store(o, c);
        PaintTwice(old(data[..]), done, {o}, c);
        if x == x2 && y == y2 {
          BresenhamArrive(x, y, err, dx, dy, sx, sy, pitch, done);
          done := done + {o};
          break;
        }
        ghost var nx, ny, ne := BresenhamAdvance(x, y, err, x2, y2, dx, dy, sx, sy, pitch, done);
        done := done + {o};
        var e2 := 2 * err;  // err << 1
        if e2 > -dy {
          err := err - dy;
          x := x + sx;
        }
        if e2 < dx {
          err := err + dx;
          y := y + sy;
        }
        assert x == nx && y == ny && err == ne;
      }
    }

    /** `drawRect`: fills `h` rows of `w` cells from (x, y), each row starting `width` cells after the previous one. */
    method DrawRect(x: real, y: real, w: real, h: real, color: int := 0xFF)
      modifies data
      ensures data[..] == RectSpec(old(data[..]), width, x, y, w, h, color)
    {
      var pitch := width;
      var ix, iy, iw, ih := Trunc(x), Trunc(y), Trunc(w), Trunc(h);
      var c := Color2Bytes(color);
      ghost var all := RectCells(iy * pitch + ix, pitch, iw, ih);
      var o := iy * pitch + ix;
      var wy := ih;
      while wy > 0
        invariant Paint(data[..], RectCells(o, pitch, iw, wy), c) == Paint(old(data[..]), all, c)
      {
        ghost var before := data[..];
        FillSpan(o, iw, c);
        RectRowDone(before, o, pitch, iw, wy, c);
        wy, o := wy - 1, o + pitch;
      }
      PaintNothing(data[..], RectCells(o, pitch, iw, wy), c);
    }

    /** One row of `drawRect`: the cells [o, o + n). */
    method FillSpan(o: int, n: int, c: Cell)
      modifies data
      ensures data[..] == Paint(old(data[..]), SpanCells(o, n), c)
    {
      var wx := 0;
      while wx < n
        invariant 0 <= wx && (wx <= n || wx == 0)
        invariant forall k :: 0 <= k < data.Length ==> data[k] == if o <= k < o + wx then c else old(data[k])
      {
        Store(o + wx, c);
        wx := wx + 1;
      }
      assert data[..] == Paint(old(data[..]), SpanCells(o, n), c);
    }

    method Clear(color: int := 0)
      modifies data
      ensures data[..] == ClearSpec(old(data[..]), color)
    {
      var c := Color2Bytes(color);
      for i := 0 to data.Length
        invariant forall k :: 0 <= k < i ==> data[k] == c
      {
        data[i] := c;
      }
    }

    /**
     * `rectAlpha`.  The source walks the byte view, four bytes per cell, and
     * touches byte +3 of each; here the loops walk the cells themselves.
     */
    method RectAlpha(x: real, y: real, w: real, h: real, alpha: real)
      modifies data
      ensures data[..] == FadeSpec(old(data[..]), width, x, y, w, h, alpha)
    {
      var pitch := width;
      var ix, iy, iw, ih := Trunc(x), Trunc(y), Trunc(w), Trunc(h);
      var o := iy * pitch + ix;
      var wy := ih;
      while wy > 0
        invariant FadeRows(data[..], o, pitch, iw, wy, alpha) == FadeSpec(old(data[..]), width, x, y, w, h, alpha)
      {
        FadeRow(o, iw, alpha);
        wy, o := wy - 1, o + pitch;
      }
    }

    /** One row of `rectAlpha`: the alpha byte of the cells [o, o + n). */
    method FadeRow(o: int, n: int, alpha: real)
      modifies data
      ensures data[..] == FadeSpan(old(data[..]), o, n, alpha)
    {
      var wx := 0;
      while wx < n
        invariant 0 <= wx && (wx <= n || wx == 0)
        invariant forall k :: 0 <= k < data.Length ==>
          data[k] == if o <= k < o + wx then Fade(old(data[k]), alpha) else old(data[k])
      {
        var k := o + wx;
        if 0 <= k < data.Length {
          var a := data[k] / AlphaUnit;
          if a != 0 {
            data[k] := Fade(data[k], alpha);
          }
        }
        wx := wx + 1;
      }
      assert data[..] == FadeSpan(old(data[..]), o, n, alpha);
    }
  }
}
