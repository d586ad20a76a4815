/**
 * What each drawing routine of the stock chart leaves in the pixel buffer,
 * as functions of the buffer before it.  Every loop of the source that
 * walks the bars is a recursive function here, taking the loop's index and
 * running variables as parameters, so that the methods in module Chart can
 * be proved against them one iteration at a time.
 */
module ChartImage {
  import opened JsNumber
  import opened Raster
  import opened ChartGeometry
  import FixedQueue
  import RelativeStrength
  import ParabolicSar
  import RasterProperties

  const AverageCostColor := 0x00c4ff80
  const SeparatorColor := 0x00000040
  const HorizonColor := 0x00000080
  const CandleUpColor := 0xff0000ff
  const CandleDownColor := 0x00a050ff
  const VolumeColor := 0xffff00ff
  const ShortAverageColor := 0x0080ffff
  const LongAverageColor := 0xff8000ff
  const SarUpColor := 0xff88ffff
  const SarDownColor := 0x88ff88ff
  const RsiCenterColor := 0x404040ff
  const RsiSupportColor := 0x202020ff
  const RsiLineColor := 0x000000ff
  const RateCenterColor := 0x00ff80ff
  const RateSupportColor := 0x00ff80ff

  /** The step of the chart's parabolic SAR. */
  const SarStep: real := 0.02

  /** The value range a `toPixel` closure maps onto the price band. */
  datatype Scale = Scale(min: real, max: real)

  /** The four prices a candlestick is drawn from. */
  datatype Candle = Candle(open: real, high: real, low: real, close: real)

  /** A line across the whole canvas at row `y`, from column 0 to column `width`. */
  function HLine(s: seq<Cell>, l: Layout, y: real, color: int): seq<Cell>
  {
    LineSpec(s, l.width, 0.0, y, l.width as real, y, color)
  }

  // ---------------------------------------------------------------------
  // Month separators
  // ---------------------------------------------------------------------

  /** The separator loop from bar `i` down to bar 0, `m` being the month last seen. */
  function Separators(s: seq<Cell>, l: Layout, db: seq<Bar>, i: int, x: real, w: real, m: string): seq<Cell>
    requires i < |db|
    decreases i + 1
  {
    if i < 0 then s
    else
      var month := db[i].date.month;
      if month != m then Separators(LineSpec(s, l.width, x, 0.0, x, l.height as real, SeparatorColor), l, db, i - 1, x + w, w, month)
      else Separators(s, l, db, i - 1, x + w, w, m)
  }

  /** One turn of the separator loop. */
  lemma SeparatorsStep(s: seq<Cell>, l: Layout, db: seq<Bar>, i: int, x: real, w: real, m: string, changed: bool)
    requires 0 <= i < |db| && changed == (db[i].date.month != m)
    ensures Separators(s, l, db, i, x, w, m)
      == Separators(if changed then LineSpec(s, l.width, x, 0.0, x, l.height as real, SeparatorColor) else s,
                    l, db, i - 1, x + w, w, if changed then db[i].date.month else m)
  {
  }

  /** Bar `i` of a window of `n` bars starts a new month: its month differs from the month of the bar before it in time. */
  predicate MonthStarts(db: seq<Bar>, n: int, i: int)
    requires 0 <= i < n <= |db|
  {
    i < n - 1 && db[i].date.month != db[i + 1].date.month
  }

  /** The separators described bar by bar: a line at the left edge of every bar that starts a month. */
  function MonthLines(s: seq<Cell>, l: Layout, db: seq<Bar>, n: int, i: int, x: real, w: real): seq<Cell>
    requires i < n <= |db|
    decreases i + 1
  {
    if i < 0 then s
    else
      var s1 := if MonthStarts(db, n, i) then LineSpec(s, l.width, x, 0.0, x, l.height as real, SeparatorColor) else s;
      MonthLines(s1, l, db, n, i - 1, x + w, w)
  }

  /** The running month of the separator loop is always the month of the previous bar in time, so it draws exactly the month starts. */
  lemma {:induction false} SeparatorsAtMonthStarts(s: seq<Cell>, l: Layout, db: seq<Bar>, n: int, i: int, x: real, w: real, m: string)
    requires -1 <= i < n <= |db| && 1 <= n
    requires m == db[if i + 1 < n then i + 1 else n - 1].date.month
    ensures Separators(s, l, db, i, x, w, m) == MonthLines(s, l, db, n, i, x, w)
    decreases i + 1
  {
    if 0 <= i {
      var month := db[i].date.month;
      var m' := if month != m then month else m;
      assert m' == db[i].date.month;
      var s1 := if month != m then LineSpec(s, l.width, x, 0.0, x, l.height as real, SeparatorColor) else s;
      assert MonthStarts(db, n, i) <==> month != m;
      SeparatorsAtMonthStarts(s1, l, db, n, i - 1, x + w, w, m');
    }
  }

  // ---------------------------------------------------------------------
  // Volume bars
  // ---------------------------------------------------------------------

  /** `#drawVolumeBar(x, w, volume)`: a bar standing on `lowVolumeLine`, nothing when its height is not positive. */
  function VolumeBar(s: seq<Cell>, l: Layout, x: real, w: real, volume: real, maxVolume: real): seq<Cell>
  {
    var h := VolumeHeight(l, volume, maxVolume);
    if h <= 0 then s
    else RectSpec(s, l.width, x, (l.lowVolumeLine - h) as real, w, h as real, VolumeColor)
  }

  /** The volume loop from bar `i` down to bar 0. */
  function VolumeBars(s: seq<Cell>, l: Layout, db: seq<Bar>, i: int, x: real, w: real, maxVolume: real): seq<Cell>
    requires i < |db|
    decreases i + 1
  {
    if i < 0 then s
    else VolumeBars(VolumeBar(s, l, x, w, db[i].volume, maxVolume), l, db, i - 1, x + w, w, maxVolume)
  }

  /** One turn of the volume loop. */
  lemma VolumeBarsStep(s: seq<Cell>, s': seq<Cell>, l: Layout, db: seq<Bar>, i: int, x: real, w: real, maxVolume: real)
    requires 0 <= i < |db| && s' == VolumeBar(s, l, x, w, db[i].volume, maxVolume)
    ensures VolumeBars(s, l, db, i, x, w, maxVolume) == VolumeBars(s', l, db, i - 1, x + w, w, maxVolume)
  {
  }

  /** A volume bar fills the rows just above `lowVolumeLine`, `VolumeHeight` of them, over the bar's columns. */
  lemma VolumeBarCells(s: seq<Cell>, l: Layout, x: real, w: real, volume: real, maxVolume: real, k: int)
    requires 0 <= k < |s| && 0 < VolumeHeight(l, volume, maxVolume)
    ensures var h := VolumeHeight(l, volume, maxVolume);
      var o := (l.lowVolumeLine - h) * l.width + Trunc(x);
      VolumeBar(s, l, x, w, volume, maxVolume)[k] ==
        if exists r :: 0 <= r < h && o + r * l.width <= k < o + r * l.width + Trunc(w)
        then Color2Bytes(VolumeColor) else s[k]
  {
    var h := VolumeHeight(l, volume, maxVolume);
    TruncOfInt(l.lowVolumeLine - h);
    TruncOfInt(h);
    RasterProperties.RectSpecCells(s, l.width, x, (l.lowVolumeLine - h) as real, w, h as real, VolumeColor, k);
  }

  // ---------------------------------------------------------------------
  // Moving averages, parabolic SAR and RSI
  // ---------------------------------------------------------------------

  /** The state of the indicator loop: both queues, the RSI, the parabolic SAR and the previous pixel rows. */
  datatype Tracks = Tracks(q5: seq<real>, q25: seq<real>, rsi: RelativeStrength.RsiState, sar: ParabolicSar.SarState,
                           prev5: int, prev25: int, prevRsi: int)

  /** Queues of 5 and 25 entries, as the loop creates them. */
  predicate Formed(t: Tracks)
  {
    |t.q5| == 5 && |t.q25| == 25
  }

  /** `new Queue(5)`, `new Queue(25)`, `new RSI(14)`, `new Parabolic(.02)` and three zero rows. */
  function StartTracks(): (t: Tracks)
    ensures Formed(t)
  {
    Tracks(FixedQueue.Filled(5), FixedQueue.Filled(25), RelativeStrength.RsiState([], 0.0, 14, 0), ParabolicSar.Initial, 0, 0, 0)
  }

  /**
   * One moving average: push the close; once the queue is full, plot its
   * mean and join it to the previous row, unless there is no previous row
   * yet or the bar lies in the warm-up.  Gives the buffer, the queue and
   * the row to remember.
   */
  function AverageStep(s: seq<Cell>, l: Layout, q: seq<real>, prev: int, close: real, drawn: bool, cx: real, w: real,
                       sc: Scale, color: int): (r: (seq<Cell>, seq<real>, int))
    requires 0 < |q|
    ensures |r.1| == |q|
  {
    var q1 := FixedQueue.Pushed(q, close);
    FixedQueue.PushedLength(q, close);
    if !FixedQueue.Ready(q1) then (s, q1, prev)
    else
      var v := ToPixel(l, FixedQueue.Mean(q1).value, sc.min, sc.max);
      (if prev > 0 && drawn then LineSpec(s, l.width, cx - w, prev as real, cx, v as real, color) else s, q1, v)
  }

  /**
   * The overlays drawn only with a price scale: both moving averages and
   * the parabolic SAR.  The SAR is fed `(db[i][2], db[i][3], close)`,
   * that is the high where `calc` expects the low and the low where it
   * expects the high.
   */
  function PriceOverlays(s: seq<Cell>, l: Layout, db: seq<Bar>, n: int, i: int, x: real, w: real, sc: Scale, t: Tracks): (r: (seq<Cell>, Tracks))
    requires 0 <= i < |db| && Formed(t)
    ensures Formed(r.1)
  {
    var close := db[i].close;
    var cx := w / 2.0 + x;
    var drawn := i < n - 1;
    var a5 := AverageStep(s, l, t.q5, t.prev5, close, drawn, cx, w, sc, ShortAverageColor);
    var a25 := AverageStep(a5.0, l, t.q25, t.prev25, close, drawn, cx, w, sc, LongAverageColor);
    var sar := ParabolicSar.Step(SarStep, t.sar, db[i].high, db[i].low, close);
    (SarMark(a25.0, l, x, w, sc, sar, drawn), t.(q5 := a5.1, q25 := a25.1, sar := sar, prev5 := a5.2, prev25 := a25.2))
  }

  /** The overlays of one bar, stage by stage. */
  lemma PriceOverlaysStages(s: seq<Cell>, l: Layout, db: seq<Bar>, n: int, i: int, x: real, w: real, sc: Scale, t: Tracks,
                            a5: (seq<Cell>, seq<real>, int), a25: (seq<Cell>, seq<real>, int))
    requires 0 <= i < |db| && Formed(t)
    requires a5 == AverageStep(s, l, t.q5, t.prev5, db[i].close, i < n - 1, w / 2.0 + x, w, sc, ShortAverageColor)
    requires a25 == AverageStep(a5.0, l, t.q25, t.prev25, db[i].close, i < n - 1, w / 2.0 + x, w, sc, LongAverageColor)
    ensures var sar := ParabolicSar.Step(SarStep, t.sar, db[i].high, db[i].low, db[i].close);
      PriceOverlays(s, l, db, n, i, x, w, sc, t)
      == (SarMark(a25.0, l, x, w, sc, sar, i < n - 1), t.(q5 := a5.1, q25 := a25.1, sar := sar, prev5 := a5.2, prev25 := a25.2))
  {
  }

  /** The three-row mark of the stop at bar column `x`, drawn outside the warm-up in the colour of the trend. */
  function SarMark(s: seq<Cell>, l: Layout, x: real, w: real, sc: Scale, sar: ParabolicSar.SarState, drawn: bool): seq<Cell>
  {
    var v := ToPixel(l, sar.sar, sc.min, sc.max);
    if drawn then RectSpec(s, l.width, x + 1.0, (v - 1) as real, w - 2.0, 3.0, if sar.upTrend then SarUpColor else SarDownColor) else s
  }

  /** The RSI part of the indicator loop: push the close, and once there is a reading join it to the previous one (outside the warm-up). */
  function RsiStep(s: seq<Cell>, l: Layout, n: int, i: int, close: real, cx: real, w: real, t: Tracks): (r: (seq<Cell>, Tracks))
    ensures r.1 == t.(rsi := r.1.rsi, prevRsi := r.1.prevRsi)
  {
    var (rs, ready) := RelativeStrength.Step(t.rsi, close);
    if !ready then (s, t.(rsi := rs))
    else
      var v := l.height - rs.value;
      (if i < n - 1 then LineSpec(s, l.width, cx - w, t.prevRsi as real, cx, v as real, RsiLineColor) else s,
       t.(rsi := rs, prevRsi := v))
  }

  /** One pass of the indicator loop over bar `i`; `sc` is `None` when no `toPixel` is given. */
  function IndicatorStep(s: seq<Cell>, l: Layout, db: seq<Bar>, n: int, i: int, x: real, w: real, sc: Option<Scale>, t: Tracks): (r: (seq<Cell>, Tracks))
    requires 0 <= i < |db| && Formed(t)
    ensures Formed(r.1)
  {
    var o := if sc.Some? then PriceOverlays(s, l, db, n, i, x, w, sc.value, t) else (s, t);
    RsiStep(o.0, l, n, i, db[i].close, w / 2.0 + x, w, o.1)
  }

  /** An indicator pass is the price overlays, when there is a scale, followed by the RSI. */
  lemma IndicatorStepParts(s: seq<Cell>, l: Layout, db: seq<Bar>, n: int, i: int, x: real, w: real, sc: Option<Scale>, t: Tracks)
    requires 0 <= i < |db| && Formed(t)
    ensures var o := if sc.Some? then PriceOverlays(s, l, db, n, i, x, w, sc.value, t) else (s, t);
      IndicatorStep(s, l, db, n, i, x, w, sc, t) == RsiStep(o.0, l, n, i, db[i].close, w / 2.0 + x, w, o.1)
  {
  }

  /** The indicator loop from `i` down to 0: bars past the data are skipped, and `x` advances only inside the window. */
  function Indicators(s: seq<Cell>, l: Layout, db: seq<Bar>, n: int, i: int, x: real, w: real, sc: Option<Scale>, t: Tracks): seq<Cell>
    requires Formed(t)
    decreases i + 1
  {
    if i < 0 then s
    else if i >= |db| then Indicators(s, l, db, n, i - 1, x, w, sc, t)
    else
      var (s1, t1) := IndicatorStep(s, l, db, n, i, x, w, sc, t);
      Indicators(s1, l, db, n, i - 1, if i > n - 1 then x else x + w, w, sc, t1)
  }

  /** One turn of the indicator loop: a bar past the data is skipped without moving `x`. */
  lemma IndicatorsStep(s: seq<Cell>, l: Layout, db: seq<Bar>, n: int, i: int, x: real, w: real, sc: Option<Scale>, t: Tracks)
    requires 0 <= i && Formed(t)
    ensures i >= |db| ==> Indicators(s, l, db, n, i, x, w, sc, t) == Indicators(s, l, db, n, i - 1, x, w, sc, t)
    ensures i < |db| ==>
      (Indicators(s, l, db, n, i, x, w, sc, t)
       == Indicators(IndicatorStep(s, l, db, n, i, x, w, sc, t).0, l, db, n, i - 1, if i > n - 1 then x else x + w, w, sc,
                     IndicatorStep(s, l, db, n, i, x, w, sc, t).1))
  {
  }

  /** The bars older than the window and the oldest bar of the window only warm the indicators up: nothing is drawn for them. */
  lemma WarmUpDrawsNothing(s: seq<Cell>, l: Layout, db: seq<Bar>, n: int, i: int, x: real, w: real, sc: Option<Scale>, t: Tracks)
    requires 0 <= i < |db| && n - 1 <= i && Formed(t)
    ensures IndicatorStep(s, l, db, n, i, x, w, sc, t).0 == s
  {
  }

  /** Without a price scale the moving averages and the SAR are neither drawn nor advanced; only the RSI is. */
  lemma RateModeOnlyRsi(s: seq<Cell>, l: Layout, db: seq<Bar>, n: int, i: int, x: real, w: real, t: Tracks)
    requires 0 <= i < |db| && Formed(t)
    ensures var t1 := IndicatorStep(s, l, db, n, i, x, w, None, t).1;
      t1.q5 == t.q5 && t1.q25 == t.q25 && t1.sar == t.sar && t1.prev5 == t.prev5 && t1.prev25 == t.prev25
    ensures t.rsi.last == 0.0 && 0.0 <= db[i].close ==> IndicatorStep(s, l, db, n, i, x, w, None, t).0 == s
  {
    if t.rsi.last == 0.0 && 0.0 <= db[i].close {
      RelativeStrength.FirstPrice(t.rsi, db[i].close);
    }
  }

  /** The chart's SAR sees each bar with its high and low exchanged. */
  lemma SarSeesHighAsLow(s: seq<Cell>, l: Layout, db: seq<Bar>, n: int, i: int, x: real, w: real, sc: Scale, t: Tracks)
    requires 0 <= i < |db| && Formed(t)
    ensures IndicatorStep(s, l, db, n, i, x, w, Some(sc), t).1.sar
      == ParabolicSar.Step(SarStep, t.sar, db[i].high, db[i].low, db[i].close)
  {
  }

  /** An average is never joined to row 0: its first plotted point draws nothing. */
  lemma FirstAverageSilent(s: seq<Cell>, l: Layout, q: seq<real>, close: real, drawn: bool, cx: real, w: real, sc: Scale, color: int)
    requires 0 < |q|
    ensures AverageStep(s, l, q, 0, close, drawn, cx, w, sc, color).0 == s
  {
  }

  // ---------------------------------------------------------------------
  // Candlesticks
  // ---------------------------------------------------------------------

  /** `#drawCandlestick`: the wick from low to high at the middle column, then the body from the higher of open and close downwards. */
  function CandleImage(s: seq<Cell>, l: Layout, x: real, w: real, c: Candle, sc: Scale, maxRange: real): seq<Cell>
  {
    var color := if Rising(c.open, c.close) then CandleUpColor else CandleDownColor;
    var cx := WickColumn(x, w) as real;
    var s1 := LineSpec(s, l.width, cx, ToPixel(l, c.low, sc.min, sc.max) as real, cx, ToPixel(l, c.high, sc.min, sc.max) as real, color);
    RectSpec(s1, l.width, x, CandleTop(l, c.open, c.close, sc.min, sc.max) as real, w,
             CandleHeight(l, c.open, c.close, maxRange) as real, color)
  }

  /** The candlestick loop from bar `i` down to bar 0. */
  function Candles(s: seq<Cell>, l: Layout, cs: seq<Candle>, i: int, x: real, w: real, sc: Scale, maxRange: real): seq<Cell>
    requires i < |cs|
    decreases i + 1
  {
    if i < 0 then s
    else Candles(CandleImage(s, l, x, w, cs[i], sc, maxRange), l, cs, i - 1, x + w, w, sc, maxRange)
  }

  /** The candlestick loop over the first `n` candles, the oldest at the left edge. */
  function CandleChart(s: seq<Cell>, l: Layout, cs: seq<Candle>, n: int, w: real, sc: Scale, maxRange: real): seq<Cell>
    requires n <= |cs|
  {
    Candles(s, l, cs, n - 1, 0.0, w, sc, maxRange)
  }

  /** One turn of the candlestick loop. */
  lemma CandlesStep(s: seq<Cell>, s': seq<Cell>, l: Layout, cs: seq<Candle>, i: int, x: real, w: real, sc: Scale, maxRange: real)
    requires 0 <= i < |cs| && s' == CandleImage(s, l, x, w, cs[i], sc, maxRange)
    ensures Candles(s, l, cs, i, x, w, sc, maxRange) == Candles(s', l, cs, i - 1, x + w, w, sc, maxRange)
  {
  }

  /** The candles of the price chart: the prices of the first `n` bars. */
  function PriceCandles(db: seq<Bar>, n: nat): (cs: seq<Candle>)
    requires n <= |db|
    ensures |cs| == n
    ensures forall i :: 0 <= i < n ==> cs[i] == Candle(db[i].open, db[i].high, db[i].low, db[i].close)
  {
    seq(n, i requires 0 <= i < n => Candle(db[i].open, db[i].high, db[i].low, db[i].close))
  }

  /** The candles of the rate chart: the entries of the rate series. */
  function RateCandles(rates: seq<Rate>): (cs: seq<Candle>)
    ensures |cs| == |rates|
    ensures forall i :: 0 <= i < |rates| ==>
      cs[i] == Candle(rates[i].open as real, rates[i].high as real, rates[i].low as real, rates[i].close as real)
  {
    seq(|rates|, i requires 0 <= i < |rates| =>
      Candle(rates[i].open as real, rates[i].high as real, rates[i].low as real, rates[i].close as real))
  }

  /** The body of a candle fills `CandleHeight` rows from its top, over `w` columns from `x`. */
  lemma CandleBodyCells(s: seq<Cell>, l: Layout, x: real, w: real, c: Candle, sc: Scale, maxRange: real, k: int)
    requires 0 <= k < |s|
    ensures var top := CandleTop(l, c.open, c.close, sc.min, sc.max);
      var h := CandleHeight(l, c.open, c.close, maxRange);
      var o := top * l.width + Trunc(x);
      (exists r :: 0 <= r < h && o + r * l.width <= k < o + r * l.width + Trunc(w)) ==>
        CandleImage(s, l, x, w, c, sc, maxRange)[k] == Color2Bytes(if Rising(c.open, c.close) then CandleUpColor else CandleDownColor)
  {
    var color := if Rising(c.open, c.close) then CandleUpColor else CandleDownColor;
    var cx := WickColumn(x, w) as real;
    var s1 := LineSpec(s, l.width, cx, ToPixel(l, c.low, sc.min, sc.max) as real, cx, ToPixel(l, c.high, sc.min, sc.max) as real, color);
    var top := CandleTop(l, c.open, c.close, sc.min, sc.max);
    var h := CandleHeight(l, c.open, c.close, maxRange);
    TruncOfInt(top);
    TruncOfInt(h);
    RasterProperties.RectSpecCells(s1, l.width, x, top as real, w, h as real, color, k);
  }

  // ---------------------------------------------------------------------
  // Whole charts
  // ---------------------------------------------------------------------

  /** The horizontal lines of `#drawChartCommon`: the price range, the volume band, and the RSI's 25, 50 and 75 levels. */
  function GridLines(s: seq<Cell>, l: Layout, minPos: int, maxPos: int): seq<Cell>
  {
    var s1 := HLine(HLine(s, l, minPos as real, HorizonColor), l, maxPos as real, HorizonColor);
    var s2 := HLine(HLine(s1, l, l.lowVolumeLine as real, HorizonColor), l, l.highVolumeLine as real, HorizonColor);
    var per50 := (l.lowVolumeLine - l.highVolumeLine) as real / 2.0 + l.highVolumeLine as real;
    HLine(HLine(HLine(s2, l, per50 - 25.0, RsiSupportColor), l, per50, RsiCenterColor), l, per50 + 25.0, RsiSupportColor)
  }

  /** `#drawChartCommon(minPos, maxPos, toPixel)` on a window of the first `n` bars. */
  function CommonImage(s: seq<Cell>, l: Layout, db: seq<Bar>, n: int, w: real, maxVolume: real,
                       minPos: int, maxPos: int, sc: Option<Scale>): seq<Cell>
    requires 1 <= n <= |db|
  {
    var s1 := ClearSpec(s, 0);
    var s2 := Separators(s1, l, db, n - 1, 0.0, w, db[n - 1].date.month);
    var s5 := GridLines(s2, l, minPos, maxPos);
    var s6 := VolumeBars(s5, l, db, n - 1, 0.0, w, maxVolume);
    Indicators(s6, l, db, n, n + 25, 0.0, w, sc, StartTracks())
  }

  /** The average-cost lines: a line for every cost strictly between the lowest and the highest price. */
  function CostLines(s: seq<Cell>, l: Layout, costs: seq<real>, sc: Scale): seq<Cell>
    decreases |costs|
  {
    if costs == [] then s
    else
      var c := costs[0];
      var s1 := if sc.min < c < sc.max then HLine(s, l, ToPixel(l, c, sc.min, sc.max) as real, AverageCostColor) else s;
      CostLines(s1, l, costs[1..], sc)
  }

  /** One turn of the average-cost loop. */
  lemma CostLinesStep(s: seq<Cell>, l: Layout, costs: seq<real>, sc: Scale)
    requires costs != []
    ensures CostLines(s, l, costs, sc) == CostLines(if sc.min < costs[0] < sc.max then HLine(s, l, ToPixel(l, costs[0], sc.min, sc.max) as real, AverageCostColor) else s, l, costs[1..], sc)
  {
  }

  /** A cost outside the price range draws nothing. */
  lemma CostOutOfRange(s: seq<Cell>, l: Layout, c: real, sc: Scale)
    requires !(sc.min < c < sc.max)
    ensures CostLines(s, l, [c], sc) == s
  {
  }

  /** `#drawChart()`. */
  function PriceImage(s: seq<Cell>, l: Layout, db: seq<Bar>, n: int, w: real, maxVolume: real,
                      minPrice: real, maxPrice: real, costs: seq<real>): seq<Cell>
    requires 1 <= n <= |db|
  {
    var sc := Scale(minPrice, maxPrice);
    var s1 := CommonImage(s, l, db, n, w, maxVolume, ToPixel(l, minPrice, minPrice, maxPrice), ToPixel(l, maxPrice, minPrice, maxPrice), Some(sc));
    var s2 := CostLines(s1, l, costs, sc);
    CandleChart(s2, l, PriceCandles(db, n), n, w, sc, maxPrice - minPrice)
  }

  /** The three stages of the price chart. */
  lemma PriceImageStages(s0: seq<Cell>, s1: seq<Cell>, s2: seq<Cell>, s3: seq<Cell>, l: Layout, db: seq<Bar>, n: int, w: real,
                         maxVolume: real, minPrice: real, maxPrice: real, costs: seq<real>)
    requires 1 <= n <= |db|
    requires s1 == CommonImage(s0, l, db, n, w, maxVolume, ToPixel(l, minPrice, minPrice, maxPrice),
                               ToPixel(l, maxPrice, minPrice, maxPrice), Some(Scale(minPrice, maxPrice)))
    requires s2 == CostLines(s1, l, costs, Scale(minPrice, maxPrice))
    requires s3 == CandleChart(s2, l, PriceCandles(db, n), n, w, Scale(minPrice, maxPrice), maxPrice - minPrice)
    ensures s3 == PriceImage(s0, l, db, n, w, maxVolume, minPrice, maxPrice, costs)
  {
  }

  /** The 0% line and the +5% and -5% lines of the rate chart. */
  function RateLines(s: seq<Cell>, l: Layout, minRate: real, maxRate: real): seq<Cell>
  {
    var s1 := HLine(s, l, ToPixel(l, 0.0, minRate, maxRate) as real, RateCenterColor);
    var s2 := HLine(s1, l, ToPixel(l, 500.0, minRate, maxRate) as real, RateSupportColor);
    HLine(s2, l, ToPixel(l, -500.0, minRate, maxRate) as real, RateSupportColor)
  }

  /** `#drawRateChart()`. */
  function RateImage(s: seq<Cell>, l: Layout, db: seq<Bar>, n: int, w: real, maxVolume: real,
                     rates: seq<Rate>, minRate: real, maxRate: real): seq<Cell>
    requires 1 <= n <= |db| && n <= |rates|
  {
    var s1 := CommonImage(s, l, db, n, w, maxVolume, ToPixel(l, minRate, minRate, maxRate), ToPixel(l, maxRate, minRate, maxRate), None);
    CandleChart(RateLines(s1, l, minRate, maxRate), l, RateCandles(rates), n, w, Scale(minRate, maxRate), maxRate - minRate)
  }

  /** The three stages of the rate chart. */
  lemma RateImageStages(s0: seq<Cell>, s1: seq<Cell>, s2: seq<Cell>, s3: seq<Cell>,
                        l: Layout, db: seq<Bar>, n: int, w: real, maxVolume: real, rates: seq<Rate>, minRate: real, maxRate: real)
    requires 1 <= n <= |db| && n <= |rates|
    requires s1 == CommonImage(s0, l, db, n, w, maxVolume, ToPixel(l, minRate, minRate, maxRate), ToPixel(l, maxRate, minRate, maxRate), None)
    requires s2 == RateLines(s1, l, minRate, maxRate)
    requires s3 == CandleChart(s2, l, RateCandles(rates), n, w, Scale(minRate, maxRate), maxRate - minRate)
    ensures s3 == RateImage(s0, l, db, n, w, maxVolume, rates, minRate, maxRate)
  {
  }

  /** The stages of `#drawChartCommon`. */
  lemma CommonImageStages(s0: seq<Cell>, s1: seq<Cell>, s2: seq<Cell>, s3: seq<Cell>, s4: seq<Cell>, s5: seq<Cell>,
                          l: Layout, db: seq<Bar>, n: int, w: real, maxVolume: real, minPos: int, maxPos: int, sc: Option<Scale>)
    requires 1 <= n <= |db|
    requires s1 == ClearSpec(s0, 0)
    requires s2 == Separators(s1, l, db, n - 1, 0.0, w, db[n - 1].date.month)
    requires s3 == GridLines(s2, l, minPos, maxPos)
    requires s4 == VolumeBars(s3, l, db, n - 1, 0.0, w, maxVolume)
    requires s5 == Indicators(s4, l, db, n, n + 25, 0.0, w, sc, StartTracks())
    ensures s5 == CommonImage(s0, l, db, n, w, maxVolume, minPos, maxPos, sc)
  {
  }

  /** The part of `#showCanvasCommon` that touches the buffer: the first 50 cells of every row are faded to a quarter of their opacity (on a canvas narrower than 50 cells a run spills into the next row). */
  function Shown(s: seq<Cell>, l: Layout): seq<Cell>
  {
    FadeSpec(s, l.width, 0.0, 0.0, 50.0, l.height as real, 0.25)
  }

  /** A redraw starts from a cleared buffer: what was drawn before does not matter, only the buffer's size. */
  lemma RedrawForgets(s1: seq<Cell>, s2: seq<Cell>, l: Layout, db: seq<Bar>, n: int, w: real, maxVolume: real,
                      minPos: int, maxPos: int, sc: Option<Scale>)
    requires 1 <= n <= |db| && |s1| == |s2|
    ensures CommonImage(s1, l, db, n, w, maxVolume, minPos, maxPos, sc) == CommonImage(s2, l, db, n, w, maxVolume, minPos, maxPos, sc)
  {
    assert ClearSpec(s1, 0) == ClearSpec(s2, 0);
  }

  /**
   * A line from column 0 to column `width` covers `width + 1` cells, so on
   * a buffer of `width`-cell rows it also colours the first cell of the
   * next row, the cell `next`.
   */
  lemma FullWidthLineWraps(s: seq<Cell>, l: Layout, y: int, color: int, next: int)
    requires 0 < l.width && 0 <= y && next == (y + 1) * l.width && 0 <= next < |s|
    ensures HLine(s, l, y as real, color)[next] == Color2Bytes(color)
  {
    TruncOfInt(y);
    TruncOfInt(l.width);
    TruncOfInt(0);
    var cells := CellsOf(LinePoints(0, y, l.width, y), l.width);
    NextRowStart(y, l.width, next);
    PaintedAt(s, cells, Color2Bytes(color), next);
  }

  lemma NextRowStart(y: int, width: int, k: int)
    requires k == (y + 1) * width
    ensures k in CellsOf(LinePoints(0, y, width, y), width)
  {
    assert k == y * width + width;
    RasterProperties.HorizontalCells(0, width, y, width, k);
  }

  lemma PaintedAt(s: seq<Cell>, cells: set<int>, c: Cell, k: int)
    requires 0 <= k < |s| && k in cells
    ensures Paint(s, cells, c)[k] == c
  {
  }
}
