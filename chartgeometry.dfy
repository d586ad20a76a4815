/**
 * The arithmetic of the stock chart (src/stock-chart.js) that does not
 * touch the pixel buffer: the bands of the layout, the value/pixel
 * mappings, the scans over the displayed window, the day-over-day rate
 * series, the bar under a pixel column, and the geometry of candlesticks
 * and volume bars.
 */
module ChartGeometry {
  import opened JsNumber

  /** A date already split at '-' into its year, month and day texts. */
  datatype Date = Date(year: string, month: string, day: string)

  /** One trading day: `[date, open, high, low, close, volume]`. */
  datatype Bar = Bar(date: Date, open: real, high: real, low: real, close: real, volume: real)

  /** One entry of the rate series: open, high, low and close against the previous close, in hundredths of a percent. */
  datatype Rate = Rate(open: int, high: int, low: int, close: int)

  /** The rows of the layout: the price band runs from `highLine` (top) to `lowLine`, the volume band from `highVolumeLine` to `lowVolumeLine`. */
  datatype Layout = Layout(width: int, height: int, lowLine: int, highLine: int, lowVolumeLine: int, highVolumeLine: int)

  /** `Number.MAX_VALUE`, the start of the running minima. */
  const MaxValue: real := 1.7976931348623157e308

  /** `Number.MIN_VALUE`, the start of the running maxima: the smallest positive double, not a negative bound. */
  const MinValue: real := 4.9406564584124654e-324

  /** The layout the constructor sets up for a canvas of `width x height`. */
  function Bands(width: int, height: int): (l: Layout)
    ensures l.width == width && l.height == height
    ensures l.lowLine == height - 110 && l.highLine == 10
    ensures l.lowVolumeLine == height - 10 && l.highVolumeLine == height - 90
    ensures l.lowVolumeLine - l.highVolumeLine == 80
  {
    Layout(width, height, height - 110, 10, height - 10, height - 90)
  }

  /**
   * `#toPixelInRange(v, min, max)`: `min` at `lowLine`, `max` at
   * `highLine`, linear in between.  With `max == min` the quotient is NaN
   * or infinite and `| 0` gives 0.
   */
  function ToPixel(l: Layout, v: real, min: real, max: real): int
  {
    var range := max - min;
    var lineRange := (l.lowLine - l.highLine) as real;
    if range == 0.0 then 0
    else Trunc(lineRange - (v - min) / range * lineRange + l.highLine as real)
  }

  /** `#fromPixelInRange(p, min, max)`, the inverse mapping; 0 when the price band has no height. */
  function FromPixel(l: Layout, p: real, min: real, max: real): int
  {
    var lineRange := (l.lowLine - l.highLine) as real;
    var range := max - min;
    if lineRange == 0.0 then 0
    else Trunc(range - (p - l.highLine as real) / lineRange * range + min)
  }

  lemma ToPixelEnds(l: Layout, min: real, max: real)
    requires min != max
    ensures ToPixel(l, min, min, max) == l.lowLine
    ensures ToPixel(l, max, min, max) == l.highLine
  {
    assert (max - min) / (max - min) == 1.0;
    TruncOfInt(l.lowLine);
    TruncOfInt(l.highLine);
  }

  /** Over a nonempty range and a band whose bottom is not above its top, a higher value is never lower on the screen. */
  lemma ToPixelMonotone(l: Layout, v1: real, v2: real, min: real, max: real)
    requires min < max && l.highLine <= l.lowLine && v1 <= v2
    ensures ToPixel(l, v2, min, max) <= ToPixel(l, v1, min, max)
  {
    var range := max - min;
    var lineRange := (l.lowLine - l.highLine) as real;
    var p1, p2 := (v1 - min) / range * lineRange, (v2 - min) / range * lineRange;
    ScaleMonotone(v1 - min, v2 - min, range, lineRange, p1, p2);
    TruncMonotone(lineRange - p2 + l.highLine as real, lineRange - p1 + l.highLine as real);
  }

  lemma ScaleMonotone(a: real, b: real, r: real, f: real, pa: real, pb: real)
    requires a <= b && 0.0 < r && 0.0 <= f && pa == a / r * f && pb == b / r * f
    ensures pa <= pb
  {
    assert a / r <= b / r;
    assert b / r * f - a / r * f == (b / r - a / r) * f;
  }

  lemma FromPixelEnds(l: Layout, min: real, max: real)
    requires l.lowLine != l.highLine
    ensures FromPixel(l, l.highLine as real, min, max) == Trunc(max)
    ensures FromPixel(l, l.lowLine as real, min, max) == Trunc(min)
  {
    var lineRange, range := (l.lowLine - l.highLine) as real, max - min;
    DivSelf(lineRange);
    assert (l.highLine as real - l.highLine as real) / lineRange == 0.0;
    assert (l.lowLine as real - l.highLine as real) / lineRange == 1.0;
  }

  lemma DivSelf(d: real)
    requires d != 0.0
    ensures 0.0 / d == 0.0 && d / d == 1.0
  {
  }

  // ---------------------------------------------------------------------
  // The scans of `setData` over the window [0, n)
  // ---------------------------------------------------------------------

  /** The running minimum of the lows of bars [0, n), from `MAX_VALUE`. */
  function LowestLow(db: seq<Bar>, n: nat): real
    requires n <= |db|
  {
    if n == 0 then MaxValue
    else var m := LowestLow(db, n - 1); if db[n - 1].low < m then db[n - 1].low else m
  }

  /** The running maximum of the highs of bars [0, n), from `MIN_VALUE`. */
  function HighestHigh(db: seq<Bar>, n: nat): real
    requires n <= |db|
  {
    if n == 0 then MinValue
    else var m := HighestHigh(db, n - 1); if db[n - 1].high > m then db[n - 1].high else m
  }

  /** The running maximum of the volumes of bars [0, n), from 0. */
  function MostVolume(db: seq<Bar>, n: nat): real
    requires n <= |db|
  {
    if n == 0 then 0.0
    else var m := MostVolume(db, n - 1); if db[n - 1].volume > m then db[n - 1].volume else m
  }

  /** The minimum price is at most every low of the window, and is one of them unless no low is below `MAX_VALUE`. */
  lemma {:induction false} LowestLowIs(db: seq<Bar>, n: nat)
    requires n <= |db|
    ensures forall i :: 0 <= i < n ==> LowestLow(db, n) <= db[i].low
    ensures LowestLow(db, n) <= MaxValue
    ensures LowestLow(db, n) == MaxValue || exists i :: 0 <= i < n && LowestLow(db, n) == db[i].low
  {
    if n > 0 {
      LowestLowIs(db, n - 1);
    }
  }

  /** The maximum price is at least every high of the window and at least `MIN_VALUE`, and is one of them or `MIN_VALUE`. */
  lemma {:induction false} HighestHighIs(db: seq<Bar>, n: nat)
    requires n <= |db|
    ensures forall i :: 0 <= i < n ==> db[i].high <= HighestHigh(db, n)
    ensures MinValue <= HighestHigh(db, n)
    ensures HighestHigh(db, n) == MinValue || exists i :: 0 <= i < n && HighestHigh(db, n) == db[i].high
  {
    if n > 0 {
      HighestHighIs(db, n - 1);
    }
  }

  /** The maximum volume is at least every volume of the window and at least 0. */
  lemma {:induction false} MostVolumeIs(db: seq<Bar>, n: nat)
    requires n <= |db|
    ensures forall i :: 0 <= i < n ==> db[i].volume <= MostVolume(db, n)
    ensures 0.0 <= MostVolume(db, n)
    ensures MostVolume(db, n) == 0.0 || exists i :: 0 <= i < n && MostVolume(db, n) == db[i].volume
  {
    if n > 0 {
      MostVolumeIs(db, n - 1);
    }
  }

  // ---------------------------------------------------------------------
  // The rate series
  // ---------------------------------------------------------------------

  /** `(v / prevClose - 1) * 10000 | 0`; a zero previous close gives NaN or an infinity, hence 0. */
  function RateOf(v: real, prevClose: real): int
  {
    if prevClose == 0.0 then 0 else Trunc((v / prevClose - 1.0) * 10000.0)
  }

  /** The rates of bar `i` against the close of the bar before it in time, bar `i + 1`. */
  function RateAt(db: seq<Bar>, i: nat): Rate
    requires i + 1 < |db|
  {
    var pc := db[i + 1].close;
    Rate(RateOf(db[i].open, pc), RateOf(db[i].high, pc), RateOf(db[i].low, pc), RateOf(db[i].close, pc))
  }

  /** The baseline entry of the oldest displayed day. */
  const Baseline := Rate(0, 0, 0, 0)

  /** The rate series of a window of `n` days, newest first like the bars. */
  function RateSeries(db: seq<Bar>, n: nat): (r: seq<Rate>)
    requires 0 < n <= |db|
    ensures |r| == n && r[n - 1] == Baseline
    ensures forall i :: 0 <= i < n - 1 ==> r[i] == RateAt(db, i)
  {
    seq(n, i requires 0 <= i < n => if i == n - 1 then Baseline else RateAt(db, i))
  }

  /** The running maximum of the high rates of bars [i, n - 2], taken from the oldest, from `MIN_VALUE`. */
  function TopRate(db: seq<Bar>, n: nat, i: nat): real
    requires n <= |db|
    decreases n - i
  {
    if i + 1 >= n then MinValue
    else var t := TopRate(db, n, i + 1); if RateAt(db, i).high as real > t then RateAt(db, i).high as real else t
  }

  /** The running minimum of the low rates of bars [i, n - 2], from `MAX_VALUE`. */
  function BottomRate(db: seq<Bar>, n: nat, i: nat): real
    requires n <= |db|
    decreases n - i
  {
    if i + 1 >= n then MaxValue
    else var t := BottomRate(db, n, i + 1); if (RateAt(db, i).low as real) < t then RateAt(db, i).low as real else t
  }

  /** The maximum rate is at least every high rate and at least `MIN_VALUE`, so it is never below about 0; the baseline is not scanned. */
  lemma {:induction false} TopRateIs(db: seq<Bar>, n: nat, i: nat)
    requires n <= |db|
    ensures forall j :: i <= j < n - 1 ==> RateAt(db, j).high as real <= TopRate(db, n, i)
    ensures MinValue <= TopRate(db, n, i)
    decreases n - i
  {
    if i + 1 < n {
      TopRateIs(db, n, i + 1);
    }
  }

  /** The minimum rate is at most every low rate and at most `MAX_VALUE`. */
  lemma {:induction false} BottomRateIs(db: seq<Bar>, n: nat, i: nat)
    requires n <= |db|
    ensures forall j :: i <= j < n - 1 ==> BottomRate(db, n, i) <= RateAt(db, j).low as real
    ensures BottomRate(db, n, i) <= MaxValue
    decreases n - i
  {
    if i + 1 < n {
      BottomRateIs(db, n, i + 1);
    }
  }

  /** Day-over-day rates are relative to the previous close: a close equal to it has rate 0. */
  lemma RateOfSame(pc: real)
    requires pc != 0.0
    ensures RateOf(pc, pc) == 0
  {
  }

  // ---------------------------------------------------------------------
  // Pixel columns, candlesticks and volume bars
  // ---------------------------------------------------------------------

  /** `dateRange - (x / w | 0) - 1`, raised to 0 when negative: the bar under pixel column `x`. */
  function IndexAt(dateRange: int, w: real, x: real): int
  {
    var index := dateRange - DivTrunc(x, w) - 1;
    if index < 0 then 0 else index
  }

  /** The candle width `setData` sets is `width / dateRange`; every column of the canvas falls on a displayed bar. */
  lemma IndexInWindow(width: int, dateRange: int, x: real)
    requires 0 < width && 0 < dateRange && 0.0 <= x < width as real
    ensures 0 <= IndexAt(dateRange, width as real / dateRange as real, x) < dateRange
  {
    var w := width as real / dateRange as real;
    var q := x / w;
    assert 0.0 < w;
    assert q == x * dateRange as real / width as real;
    assert 0.0 <= q < dateRange as real by {
      assert x * dateRange as real < width as real * dateRange as real;
    }
    TruncMonotone(0.0, q);
    assert Trunc(q) < dateRange;
  }

  /** The height of a candle body: `|close - open| / maxRange` of the price band, 1 pixel at least. */
  function CandleHeight(l: Layout, open: real, close: real, maxRange: real): (h: int)
    ensures 1 <= h
  {
    var d := if close < open then open - close else close - open;
    var h := if maxRange == 0.0 then 0 else Trunc(d / maxRange * (l.lowLine - l.highLine) as real);
    if h <= 0 then 1 else h
  }

  /** Whether a candle is drawn in the up colour: `open < close`. */
  predicate Rising(open: real, close: real)
  {
    open < close
  }

  /** The top edge of a candle body: the pixel of the larger of open and close. */
  function CandleTop(l: Layout, open: real, close: real, min: real, max: real): int
  {
    ToPixel(l, if Rising(open, close) then close else open, min, max)
  }

  lemma CandleTopIsMax(l: Layout, open: real, close: real, min: real, max: real)
    ensures CandleTop(l, open, close, min, max) == ToPixel(l, Max(open, close), min, max)
  {
  }

  /** The column of a candle's wick: `(w / 2 | 0) + (x | 0)`. */
  function WickColumn(x: real, w: real): int
  {
    Trunc(w / 2.0) + Trunc(x)
  }

  /** The height of a volume bar: `volume / maxVolume` of the volume band less one row; 0 when `maxVolume` is 0. */
  function VolumeHeight(l: Layout, volume: real, maxVolume: real): int
  {
    if maxVolume == 0.0 then 0
    else Trunc(volume / maxVolume * (l.lowVolumeLine - l.highVolumeLine - 1) as real)
  }

  /** A volume no larger than the maximum gives a bar of at most 79 rows on the constructor's bands. */
  lemma VolumeHeightBound(width: int, height: int, volume: real, maxVolume: real)
    requires 0.0 <= volume <= maxVolume && 0.0 < maxVolume
    ensures 0 <= VolumeHeight(Bands(width, height), volume, maxVolume) <= 79
  {
    var f := volume / maxVolume;
    assert 0.0 <= f <= 1.0 by {
      assert f * maxVolume == volume;
    }
    TruncMonotone(0.0, f * 79.0);
    TruncMonotone(f * 79.0, 79.0);
    TruncOfInt(79);
  }
}
