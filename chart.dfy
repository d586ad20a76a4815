/**
 * `StockChart` (src/stock-chart.js): loads a window of daily bars, derives
 * the rate series, and draws either the price chart or the rate chart into
 * its `Bitmap`.  Every drawing method is proved against the image function
 * of module ChartImage that describes it.
 */
module Chart {
  import opened JsNumber
  import opened Raster
  import opened ChartGeometry
  import opened ChartImage
  import FixedQueue
  import RelativeStrength
  import ParabolicSar

  const PriceMode := 0
  const PercentageChangeMode := 1

  /** What `dateData` reports besides the texts: the bar under the pointer and the value of the pointer's row (hundredths of a percent in rate mode). */
  datatype Quote = Quote(index: int, line: int)

  /** `dateRange |= 0`, then at most `db.length`. */
  function Window(length: nat, days: real): (n: int)
    ensures n <= length
    ensures n <= Trunc(days)
    ensures n == Trunc(days) || n == length
  {
    var n := Trunc(days);
    if n > length then length else n
  }

  /** The in-place `rateDb.reverse()` of `setData`, on the fresh local list of rates: entry `k` becomes entry `|s| - 1 - k`. */
  function Reversed<T>(s: seq<T>): (r: seq<T>)
    ensures |r| == |s|
    ensures forall k :: 0 <= k < |s| ==> r[k] == s[|s| - 1 - k]
  {
    seq(|s|, k requires 0 <= k < |s| => s[|s| - 1 - k])
  }

  /** The scan of `setData` for the lowest low, the highest high and the largest volume of the first `n` bars. */
  method ScanWindow(db: seq<Bar>, n: int) returns (minPrice: real, maxPrice: real, maxVolume: real)
    requires 0 <= n <= |db|
    ensures minPrice == LowestLow(db, n) && maxPrice == HighestHigh(db, n) && maxVolume == MostVolume(db, n)
  {
    minPrice, maxPrice, maxVolume := MaxValue, MinValue, 0.0;
    var i := 0;
    while i < n
      invariant 0 <= i <= n
      invariant minPrice == LowestLow(db, i) && maxPrice == HighestHigh(db, i) && maxVolume == MostVolume(db, i)
    {
      var high, low, volume := db[i].high, db[i].low, db[i].volume;
      if low < minPrice {
        minPrice := low;
      }
      if high > maxPrice {
        maxPrice := high;
      }
      if volume > maxVolume {
        maxVolume := volume;
      }
      i := i + 1;
    }
  }

  /** The rate loop of `setData`: from the second oldest bar to the newest, each against the close before it, then reversed. */
  method RateScan(db: seq<Bar>, n: int) returns (rates: seq<Rate>, minRate: real, maxRate: real)
    requires 1 <= n <= |db|
    ensures rates == RateSeries(db, n)
    ensures minRate == BottomRate(db, n, 0) && maxRate == TopRate(db, n, 0)
  {
    minRate, maxRate := MaxValue, MinValue;
    var prevClose := db[n - 1].close;
    var pushed := [Baseline];
    var i := n - 2;
    while i >= 0
      invariant -1 <= i <= n - 2
      invariant prevClose == db[i + 1].close
      invariant |pushed| == n - 1 - i && pushed[0] == Baseline
      invariant forall k :: 1 <= k < |pushed| ==> pushed[k] == RateAt(db, n - 1 - k)
      invariant minRate == BottomRate(db, n, i + 1) && maxRate == TopRate(db, n, i + 1)
    {
      var close := db[i].close;
      var rate := Rate(RateOf(db[i].open, prevClose), RateOf(db[i].high, prevClose),
                       RateOf(db[i].low, prevClose), RateOf(close, prevClose));
      if rate.high as real > maxRate {
        maxRate := rate.high as real;
      }
      if (rate.low as real) < minRate {
        minRate := rate.low as real;
      }
      pushed := pushed + [rate];
      prevClose := close;
      i := i - 1;
    }
    rates := Reversed(pushed);
    ghost var series := RateSeries(db, n);
    forall j | 0 <= j < n
      ensures rates[j] == series[j]
    {
      assert rates[j] == pushed[n - 1 - j];
    }
    assert rates == series;
  }

  class StockChart {
    var mode: int
    const graph: Bitmap
    const layout: Layout
    var minPrice: real
    var maxPrice: real
    /** A single average cost is held as a list of one. */
    var averageCost: seq<real>
    var candleWidth: real
    var maxVolume: real
    var db: seq<Bar>
    var dateRange: int
    var minRate: real
    var maxRate: real
    /** Empty until the first `setData`. */
    var rateDb: seq<Rate>

    ghost predicate Valid()
      reads this
    {
      graph.Valid() && layout == Bands(graph.width, graph.height)
      && 0 <= dateRange <= |db|
      && (1 <= dateRange ==> |rateDb| == dateRange)
    }

    /** Whether `setData` has succeeded: without a window the drawing routines throw. */
    predicate HasData()
      reads this
    {
      1 <= dateRange
    }

    /** A chart on a `width x height` canvas, in price mode and without data. */
    constructor (width: int, height: int)
      requires 0 < width && 0 < height
      ensures Valid() && fresh(graph) && fresh(graph.data) && !HasData()
      ensures graph.width == width && graph.height == height
      ensures mode == PriceMode && db == [] && dateRange == 0 && averageCost == [0.0] && rateDb == []
      ensures minPrice == 0.0 && maxPrice == 0.0 && candleWidth == 0.0 && maxVolume == 0.0
      ensures minRate == 0.0 && maxRate == 0.0
      ensures graph.data[..] == seq(width * height, _ => 0)
    {
      mode := PriceMode;
      graph := new Bitmap(width, height);
      layout := Bands(width, height);
      minPrice, maxPrice, averageCost, candleWidth, maxVolume := 0.0, 0.0, [0.0], 0.0, 0.0;
      db, dateRange := [], 0;
      minRate, maxRate, rateDb := 0.0, 0.0, [];
    }

    /** The fields `setData(bars, days, costs)` leaves on success. */
    ghost predicate Loaded(bars: seq<Bar>, n: int, costs: seq<real>)
      reads this
      requires 1 <= n <= |bars|
    {
      db == bars && dateRange == n && averageCost == costs
      && minPrice == LowestLow(bars, n) && maxPrice == HighestHigh(bars, n) && maxVolume == MostVolume(bars, n)
      && candleWidth == graph.width as real / n as real
      && rateDb == RateSeries(bars, n) && minRate == BottomRate(bars, n, 0) && maxRate == TopRate(bars, n, 0)
    }

    /**
     * `setData(db, dateRange, averageCost)`.  A window of no bars makes the
     * source throw at `db[dateRange - 1]` before any field is written; the
     * model answers false and changes nothing.  On success the price chart
     * is drawn, whatever the mode.
     */
    method SetData(bars: seq<Bar>, days: real, costs: seq<real>) returns (ok: bool)
      requires Valid()
      modifies this, graph.data
      ensures Valid() && mode == old(mode)
      ensures ok <==> 1 <= Window(|bars|, days)
      ensures !ok ==> unchanged(this) && graph.data[..] == old(graph.data[..])
      ensures ok ==> Loaded(bars, Window(|bars|, days), costs)
      ensures ok ==> graph.data[..] == Shown(PriceImage(old(graph.data[..]), layout, bars, dateRange, candleWidth,
                                                        maxVolume, minPrice, maxPrice, costs), layout)
    {
      var n := Trunc(days);
      if n > |bars| {
        n := |bars|;
      }
      if n < 1 {
        return false;
      }
      Load(bars, n, costs);
      ghost var s0 := graph.data[..];
      DrawChart();
      ShowCanvasCommon();
      ok := true;
    }

    /** The field updates of `setData` for a window of `n` bars. */
    method Load(bars: seq<Bar>, n: int, costs: seq<real>)
      requires Valid() && 1 <= n <= |bars|
      modifies this
      ensures Valid() && HasData() && mode == old(mode) && Loaded(bars, n, costs)
    {
      var lo, hi, volume := ScanWindow(bars, n);
      var rates, minR, maxR := RateScan(bars, n);
      minPrice, maxPrice, averageCost := lo, hi, costs;
      candleWidth := graph.width as real / n as real;
      maxVolume, db, dateRange := volume, bars, n;
      minRate, maxRate, rateDb := minR, maxR, rates;
    }

    /**
     * The `mode` setter: redraws in the new mode.  Without data the source
     * clears the buffer and then throws; the model answers false.
     */
    method SetMode(value: int) returns (ok: bool)
      requires Valid()
      modifies this`mode, graph.data
      ensures Valid() && mode == value && ok == HasData()
      ensures !ok ==> graph.data[..] == ClearSpec(old(graph.data[..]), 0)
      ensures ok && value == PriceMode ==>
        graph.data[..] == Shown(PriceImage(old(graph.data[..]), layout, db, dateRange, candleWidth,
                                           maxVolume, minPrice, maxPrice, averageCost), layout)
      ensures ok && value != PriceMode ==>
        graph.data[..] == Shown(RateImage(old(graph.data[..]), layout, db, dateRange, candleWidth,
                                          maxVolume, rateDb, minRate, maxRate), layout)
    {
      mode := value;
      if !HasData() {
        graph.Clear(0);
        return false;
      }
      if value == PriceMode {
        DrawChart();
      } else {
        DrawRateChart();
      }
      ShowCanvasCommon();
      ok := true;
    }

    /** `dateData(x, y)`, its index and line: `None` where the source reads past the bars (or past the rate series in rate mode). */
    function DateData(x: real, y: real): (r: Option<Quote>)
      reads this
      ensures r.Some? <==> IndexAt(dateRange, candleWidth, x) < |db| && (mode == PriceMode || IndexAt(dateRange, candleWidth, x) < |rateDb|)
      ensures r.Some? ==> r.value.index == IndexAt(dateRange, candleWidth, x)
    {
      var index := IndexAt(dateRange, candleWidth, x);
      if index >= |db| then None
      else if mode == PriceMode then Some(Quote(index, FromPixel(layout, y, minPrice, maxPrice)))
      else if index >= |rateDb| then None
      else Some(Quote(index, FromPixel(layout, y, minRate, maxRate)))
    }

    /** The part of `#showCanvasCommon` that writes the buffer. */
    method ShowCanvasCommon()
      modifies graph.data
      ensures graph.data[..] == Shown(old(graph.data[..]), layout)
      requires Valid()
    {
      graph.RectAlpha(0.0, 0.0, 50.0, graph.height as real, 0.25);
    }

    /** `drawLine(0, y, width, y, color)`. */
    method HorizontalLine(y: real, color: int)
      requires Valid()
      modifies graph.data
      ensures graph.data[..] == HLine(old(graph.data[..]), layout, y, color)
    {
      graph.DrawLine(0.0, y, graph.width as real, y, color);
    }

    /** `#drawChart()`. */
    method DrawChart()
      requires Valid() && HasData()
      modifies graph.data
      ensures graph.data[..] == PriceImage(old(graph.data[..]), layout, db, dateRange, candleWidth,
                                           maxVolume, minPrice, maxPrice, averageCost)
    {
      ghost var s0, bars, n, w, volume, costs := graph.data[..], db, dateRange, candleWidth, maxVolume, averageCost;
      var lo, hi := minPrice, maxPrice;
      var sc := Scale(lo, hi);
      var minPos, maxPos := ToPixel(layout, lo, lo, hi), ToPixel(layout, hi, lo, hi);
      var cs, range := PriceCandles(db, dateRange), hi - lo;
      DrawChartCommon(minPos, maxPos, Some(sc));
      ghost var s1 := graph.data[..];
      assert db == bars && dateRange == n && candleWidth == w && maxVolume == volume && averageCost == costs;
      DrawCostLines(sc);
      ghost var s2 := graph.data[..];
      assert dateRange == n && candleWidth == w && averageCost == costs;
      DrawCandles(cs, sc, range);
      ghost var s3 := graph.data[..];
      assert dateRange == n && candleWidth == w;
      PriceImageStages(s0, s1, s2, s3, layout, bars, n, w, volume, lo, hi, costs);
    }

    /** `#drawRateChart()`. */
    method DrawRateChart()
      requires Valid() && HasData()
      modifies graph.data
      ensures graph.data[..] == RateImage(old(graph.data[..]), layout, db, dateRange, candleWidth,
                                          maxVolume, rateDb, minRate, maxRate)
    {
      ghost var s0, bars, n, w, volume, rates := graph.data[..], db, dateRange, candleWidth, maxVolume, rateDb;
      var lo, hi := minRate, maxRate;
      var sc := Scale(lo, hi);
      var minPos, maxPos := ToPixel(layout, lo, lo, hi), ToPixel(layout, hi, lo, hi);
      var cs, range := RateCandles(rateDb), hi - lo;
      DrawChartCommon(minPos, maxPos, None);
      ghost var s1 := graph.data[..];
      assert db == bars && dateRange == n && candleWidth == w && maxVolume == volume;
      DrawRateLines(lo, hi);
      ghost var s2 := graph.data[..];
      DrawCandles(cs, sc, range);
      ghost var s3 := graph.data[..];
      assert dateRange == n && candleWidth == w;
      RateImageStages(s0, s1, s2, s3, layout, bars, n, w, volume, rates, lo, hi);
    }

    /** The three fixed lines of `#drawRateChart`. */
    method DrawRateLines(minRate: real, maxRate: real)
      requires Valid()
      modifies graph.data
      ensures graph.data[..] == RateLines(old(graph.data[..]), layout, minRate, maxRate)
    {
      HorizontalLine(ToPixel(layout, 0.0, minRate, maxRate) as real, RateCenterColor);
      HorizontalLine(ToPixel(layout, 500.0, minRate, maxRate) as real, RateSupportColor);
      HorizontalLine(ToPixel(layout, -500.0, minRate, maxRate) as real, RateSupportColor);
    }

    /** The average-cost loop of `#drawChart`. */
    method DrawCostLines(sc: Scale)
      requires Valid()
      modifies graph.data
      ensures graph.data[..] == CostLines(old(graph.data[..]), layout, averageCost, sc)
    {
      var k := 0;
      while k < |averageCost|
        invariant 0 <= k <= |averageCost|
        invariant CostLines(graph.data[..], layout, averageCost[k..], sc) == CostLines(old(graph.data[..]), layout, averageCost, sc)
      {
        var cost := averageCost[k];
        assert averageCost[k..][1..] == averageCost[k + 1..];
        CostLinesStep(graph.data[..], layout, averageCost[k..], sc);
        if cost > sc.min && cost < sc.max {
          HorizontalLine(ToPixel(layout, cost, sc.min, sc.max) as real, AverageCostColor);
        }
        k := k + 1;
      }
    }

    /** The candlestick loops of `#drawChart` and `#drawRateChart`, from the oldest bar of the window to the newest. */
    method DrawCandles(cs: seq<Candle>, sc: Scale, maxRange: real)
      requires Valid() && dateRange <= |cs|
      modifies graph.data
      ensures graph.data[..] == CandleChart(old(graph.data[..]), layout, cs, dateRange, candleWidth, sc, maxRange)
    {
      hide CandleImage;
      var w, l := candleWidth, layout;
      ghost var target := CandleChart(graph.data[..], l, cs, dateRange, w, sc, maxRange);
      var x := 0.0;
      var i := dateRange - 1;
      while i >= 0
        invariant -1 <= i < |cs|
        invariant Candles(graph.data[..], l, cs, i, x, w, sc, maxRange) == target
      {
        ghost var s := graph.data[..];
        var c := cs[i];
        DrawCandlestick(x, w, c, sc, maxRange);
        CandlesStep(s, graph.data[..], l, cs, i, x, w, sc, maxRange);
        x := x + w;
        i := i - 1;
      }
    }

    /** `#drawCandlestick(x, w, open, high, low, close, toPixel, maxRange)`. */
    method DrawCandlestick(x: real, w: real, c: Candle, sc: Scale, maxRange: real)
      requires Valid()
      modifies graph.data
      ensures graph.data[..] == CandleImage(old(graph.data[..]), layout, x, w, c, sc, maxRange)
    {
      var yinyang := Rising(c.open, c.close);
      var y := CandleTop(layout, c.open, c.close, sc.min, sc.max);
      var cx := WickColumn(x, w);
      var h := CandleHeight(layout, c.open, c.close, maxRange);
      var color := if yinyang then CandleUpColor else CandleDownColor;
      graph.DrawLine(cx as real, ToPixel(layout, c.low, sc.min, sc.max) as real, cx as real, ToPixel(layout, c.high, sc.min, sc.max) as real, color);
      graph.DrawRect(x, y as real, w, h as real, color);
    }

    /** `#drawVolumeBar(x, w, volume)`. */
    method DrawVolumeBar(x: real, w: real, volume: real)
      requires Valid()
      modifies graph.data
      ensures graph.data[..] == VolumeBar(old(graph.data[..]), layout, x, w, volume, maxVolume)
    {
      var h := VolumeHeight(layout, volume, maxVolume);
      if h <= 0 {
        return;
      }
      graph.DrawRect(x, (layout.lowVolumeLine - h) as real, w, h as real, VolumeColor);
    }

    /** `#drawChartCommon(minPos, maxPos, toPixel)`; `sc` is the scale of `toPixel`, `None` when it is not given. */
    method DrawChartCommon(minPos: int, maxPos: int, sc: Option<Scale>)
      requires Valid() && HasData()
      modifies graph.data
      ensures graph.data[..] == CommonImage(old(graph.data[..]), layout, db, dateRange, candleWidth, maxVolume, minPos, maxPos, sc)
    {
      ghost var s0, bars, n, w, volume := graph.data[..], db, dateRange, candleWidth, maxVolume;
      graph.Clear(0);
      ghost var s1 := graph.data[..];
      DrawSeparators();
      ghost var s2 := graph.data[..];
      assert db == bars && dateRange == n && candleWidth == w && maxVolume == volume;
      DrawGridLines(minPos, maxPos);
      ghost var s3 := graph.data[..];
      assert db == bars && dateRange == n && candleWidth == w && maxVolume == volume;
      DrawVolumeBars();
      ghost var s4 := graph.data[..];
      assert db == bars && dateRange == n && candleWidth == w;
      DrawIndicators(sc);
      ghost var s5 := graph.data[..];
      assert db == bars && dateRange == n && candleWidth == w && maxVolume == volume;
      CommonImageStages(s0, s1, s2, s3, s4, s5, layout, bars, n, w, volume, minPos, maxPos, sc);
    }

    /** The horizontal lines of `#drawChartCommon`. */
    method DrawGridLines(minPos: int, maxPos: int)
      requires Valid()
      modifies graph.data
      ensures graph.data[..] == GridLines(old(graph.data[..]), layout, minPos, maxPos)
    {
      HorizontalLine(minPos as real, HorizonColor);
      HorizontalLine(maxPos as real, HorizonColor);
      HorizontalLine(layout.lowVolumeLine as real, HorizonColor);
      HorizontalLine(layout.highVolumeLine as real, HorizonColor);
      var per50 := (layout.lowVolumeLine - layout.highVolumeLine) as real / 2.0 + layout.highVolumeLine as real;
      HorizontalLine(per50 - 25.0, RsiSupportColor);
      HorizontalLine(per50, RsiCenterColor);
      HorizontalLine(per50 + 25.0, RsiSupportColor);
    }

    /** The month-separator loop of `#drawChartCommon`. */
    method DrawSeparators()
      requires Valid() && HasData()
      modifies graph.data
      ensures graph.data[..] == Separators(old(graph.data[..]), layout, db, dateRange - 1, 0.0, candleWidth, db[dateRange - 1].date.month)
    {
      var x := 0.0;
      var w := candleWidth;
      var m := db[dateRange - 1].date.month;
      var i := dateRange - 1;
      while i >= 0
        invariant -1 <= i < |db|
        invariant Separators(graph.data[..], layout, db, i, x, w, m)
               == Separators(old(graph.data[..]), layout, db, dateRange - 1, 0.0, w, db[dateRange - 1].date.month)
      {
        var month := db[i].date.month;
        var changed := month != m;
        ghost var s0 := graph.data[..];
        ghost var next := if changed then LineSpec(s0, layout.width, x, 0.0, x, layout.height as real, SeparatorColor) else s0;
        SeparatorsStep(s0, layout, db, i, x, w, m, changed);
        if changed {
          graph.DrawLine(x, 0.0, x, graph.height as real, SeparatorColor);
          m := month;
        }
        assert graph.data[..] == next;
        x := x + w;
        i := i - 1;
      }
    }

    /** The volume loop of `#drawChartCommon`. */
    method DrawVolumeBars()
      requires Valid() && HasData()
      modifies graph.data
      ensures graph.data[..] == VolumeBars(old(graph.data[..]), layout, db, dateRange - 1, 0.0, candleWidth, maxVolume)
    {
      var w, l, bars, volume := candleWidth, layout, db, maxVolume;
      ghost var target := VolumeBars(graph.data[..], l, bars, dateRange - 1, 0.0, w, volume);
      var x := 0.0;
      var i := dateRange - 1;
      while i >= 0
        invariant -1 <= i < |bars|
        invariant VolumeBars(graph.data[..], l, bars, i, x, w, volume) == target
      {
        ghost var s := graph.data[..];
        var v := bars[i].volume;
        DrawVolumeBar(x, w, v);
        VolumeBarsStep(s, graph.data[..], l, bars, i, x, w, volume);
        x := x + w;
        i := i - 1;
      }
    }

    /** One moving average of the indicator loop: push the close into `q`, and plot the mean once the queue is full. */
    method DrawAverage(q: FixedQueue.Queue, prev: int, close: real, drawn: bool, cx: real, w: real, sc: Scale, color: int)
      returns (next: int)
      requires Valid() && 0 < |q.q|
      modifies graph.data, q
      ensures (graph.data[..], q.q, next) == AverageStep(old(graph.data[..]), layout, old(q.q), prev, close, drawn, cx, w, sc, color)
    {
      next := prev;
      var ready := q.Push(close);
      if ready {
        var v := ToPixel(layout, q.Calc().value, sc.min, sc.max);
        if prev > 0 && drawn {
          graph.DrawLine(cx - w, prev as real, cx, v as real, color);
        }
        next := v;
      }
    }

    /** The `if (toPixel)` block of the indicator loop: both moving averages and the parabolic SAR of bar `i`. */
    method DrawOverlays(i: int, x: real, w: real, sc: Scale, que5: FixedQueue.Queue, que25: FixedQueue.Queue,
                        parabolic: ParabolicSar.Parabolic, rsi: RelativeStrength.RSI, prev5: int, prev25: int, prevRsi: int)
      returns (p5: int, p25: int)
      requires Valid() && 0 <= i < |db| && que5 != que25 && parabolic.deltaAF == SarStep
      requires Formed(Tracks(que5.q, que25.q, rsi.State(), parabolic.State(), prev5, prev25, prevRsi))
      modifies graph.data, que5, que25, parabolic
      ensures (graph.data[..], Tracks(que5.q, que25.q, rsi.State(), parabolic.State(), p5, p25, prevRsi))
        == PriceOverlays(old(graph.data[..]), layout, db, dateRange, i, x, w, sc,
                         Tracks(old(que5.q), old(que25.q), rsi.State(), old(parabolic.State()), prev5, prev25, prevRsi))
    {
      ghost var s0, bars, n := graph.data[..], db, dateRange;
      ghost var t0 := Tracks(que5.q, que25.q, rsi.State(), parabolic.State(), prev5, prev25, prevRsi);
      var close, high, low := db[i].close, db[i].high, db[i].low;
      var cx := w / 2.0 + x;
      var drawn := i < dateRange - 1;
      p5 := DrawAverage(que5, prev5, close, drawn, cx, w, sc, ShortAverageColor);
      ghost var s1 := graph.data[..];
      assert (s1, que5.q, p5) == AverageStep(s0, layout, t0.q5, prev5, close, drawn, cx, w, sc, ShortAverageColor);
      p25 := DrawAverage(que25, prev25, close, drawn, cx, w, sc, LongAverageColor);
      ghost var s2 := graph.data[..];
      assert (s2, que25.q, p25) == AverageStep(s1, layout, t0.q25, prev25, close, drawn, cx, w, sc, LongAverageColor);
      DrawSar(x, w, sc, parabolic, high, low, close, drawn);
      ghost var st := ParabolicSar.Step(SarStep, t0.sar, high, low, close);
      assert parabolic.State() == st && graph.data[..] == SarMark(s2, layout, x, w, sc, st, drawn);
      PriceOverlaysStages(s0, layout, bars, n, i, x, w, sc, t0, (s1, que5.q, p5), (s2, que25.q, p25));
      assert rsi.State() == t0.rsi && db == bars && dateRange == n;
      assert Tracks(que5.q, que25.q, rsi.State(), parabolic.State(), p5, p25, prevRsi)
          == t0.(q5 := que5.q, q25 := que25.q, sar := st, prev5 := p5, prev25 := p25);
    }

    /** The parabolic part of the indicator loop: `calc(high, low, close)` (in this argument order) and its mark. */
    method DrawSar(x: real, w: real, sc: Scale, parabolic: ParabolicSar.Parabolic, high: real, low: real, close: real, drawn: bool)
      requires Valid()
      modifies graph.data, parabolic
      ensures parabolic.State() == ParabolicSar.Step(parabolic.deltaAF, old(parabolic.State()), high, low, close)
      ensures graph.data[..] == SarMark(old(graph.data[..]), layout, x, w, sc, parabolic.State(), drawn)
    {
      var sar := parabolic.Calc(high, low, close);
      var v := ToPixel(layout, sar, sc.min, sc.max);
      if drawn {
        graph.DrawRect(x + 1.0, (v - 1) as real, w - 2.0, 3.0, if parabolic.GetTrend() then SarUpColor else SarDownColor);
      }
    }

    /** The RSI part of the indicator loop for the close of bar `i`. */
    method DrawRsi(i: int, close: real, cx: real, w: real, rsi: RelativeStrength.RSI, ghost t: Tracks, prevRsi: int)
      returns (next: int)
      requires Valid() && t.rsi == rsi.State() && t.prevRsi == prevRsi
      modifies graph.data, rsi
      ensures (graph.data[..], t.(rsi := rsi.State(), prevRsi := next)) == RsiStep(old(graph.data[..]), layout, dateRange, i, close, cx, w, t)
    {
      next := prevRsi;
      var ready := rsi.Push(close);
      if ready {
        var v := graph.height - rsi.Value();
        if i < dateRange - 1 {
          graph.DrawLine(cx - w, prevRsi as real, cx, v as real, RsiLineColor);
        }
        next := v;
      }
    }

    /** The body of the indicator loop for a bar `i` of the data. */
    method IndicatorPass(i: int, x: real, w: real, sc: Option<Scale>, que5: FixedQueue.Queue, que25: FixedQueue.Queue,
                         rsi: RelativeStrength.RSI, parabolic: ParabolicSar.Parabolic, prev5: int, prev25: int, prevRsi: int)
      returns (p5: int, p25: int, pr: int)
      requires Valid() && 0 <= i < |db| && que5 != que25 && parabolic.deltaAF == SarStep
      requires Formed(Tracks(que5.q, que25.q, rsi.State(), parabolic.State(), prev5, prev25, prevRsi))
      modifies graph.data, que5, que25, rsi, parabolic
      ensures (graph.data[..], Tracks(que5.q, que25.q, rsi.State(), parabolic.State(), p5, p25, pr))
        == IndicatorStep(old(graph.data[..]), layout, db, dateRange, i, x, w, sc,
                         Tracks(old(que5.q), old(que25.q), old(rsi.State()), old(parabolic.State()), prev5, prev25, prevRsi))
    {
      ghost var s0, bars, n := graph.data[..], db, dateRange;
      ghost var t0 := Tracks(que5.q, que25.q, rsi.State(), parabolic.State(), prev5, prev25, prevRsi);
      ghost var overlaid := if sc.Some? then PriceOverlays(s0, layout, bars, n, i, x, w, sc.value, t0) else (s0, t0);
      ghost var target := IndicatorStep(s0, layout, bars, n, i, x, w, sc, t0);
      IndicatorStepParts(s0, layout, bars, n, i, x, w, sc, t0);
      var close := db[i].close;
      var cx := w / 2.0 + x;
      p5, p25 := prev5, prev25;
      if sc.Some? {
        p5, p25 := DrawOverlays(i, x, w, sc.value, que5, que25, parabolic, rsi, prev5, prev25, prevRsi);
      }
      ghost var t1 := Tracks(que5.q, que25.q, rsi.State(), parabolic.State(), p5, p25, prevRsi);
      assert db == bars && dateRange == n;
      assert graph.data[..] == overlaid.0 && t1 == overlaid.1;
      pr := DrawRsi(i, close, cx, w, rsi, t1, prevRsi);
      assert db == bars && dateRange == n;
      assert Tracks(que5.q, que25.q, rsi.State(), parabolic.State(), p5, p25, pr) == t1.(rsi := rsi.State(), prevRsi := pr);
      assert (graph.data[..], Tracks(que5.q, que25.q, rsi.State(), parabolic.State(), p5, p25, pr)) == target;
    }

    /** The indicator loop of `#drawChartCommon`, from 25 bars before the window to the newest bar. */
    method DrawIndicators(sc: Option<Scale>)
      requires Valid() && HasData()
      modifies graph.data
      ensures graph.data[..] == Indicators(old(graph.data[..]), layout, db, dateRange, dateRange + 25, 0.0, candleWidth, sc, StartTracks())
    {
      hide IndicatorStep;
      var x := 0.0;
      var w := candleWidth;
      var que5 := new FixedQueue.Queue(5);
      var que25 := new FixedQueue.Queue(25);
      var rsi := new RelativeStrength.RSI(14);
      var parabolic := new ParabolicSar.Parabolic(SarStep);
      var prev5, prev25, prevRsi := 0, 0, 0;
      ghost var image := Indicators(graph.data[..], layout, db, dateRange, dateRange + 25, 0.0, w, sc, StartTracks());
      var i := dateRange + 25;
      while i >= 0
        invariant -1 <= i
        invariant que5 != que25 && parabolic.deltaAF == SarStep
        invariant Formed(Tracks(que5.q, que25.q, rsi.State(), parabolic.State(), prev5, prev25, prevRsi))
        invariant Indicators(graph.data[..], layout, db, dateRange, i, x, w, sc,
                             Tracks(que5.q, que25.q, rsi.State(), parabolic.State(), prev5, prev25, prevRsi)) == image
      {
        x, prev5, prev25, prevRsi := IndicatorTurn(i, x, w, sc, que5, que25, rsi, parabolic, prev5, prev25, prevRsi);
        i := i - 1;
      }
    }

    /** One turn of the indicator loop: a bar `i` past the data is skipped, and `x` moves on only within the window. */
    method IndicatorTurn(i: int, x: real, w: real, sc: Option<Scale>, que5: FixedQueue.Queue, que25: FixedQueue.Queue,
                         rsi: RelativeStrength.RSI, parabolic: ParabolicSar.Parabolic, prev5: int, prev25: int, prevRsi: int)
      returns (x': real, p5: int, p25: int, pr: int)
      requires Valid() && 0 <= i && que5 != que25 && parabolic.deltaAF == SarStep
      requires Formed(Tracks(que5.q, que25.q, rsi.State(), parabolic.State(), prev5, prev25, prevRsi))
      modifies graph.data, que5, que25, rsi, parabolic
      ensures Formed(Tracks(que5.q, que25.q, rsi.State(), parabolic.State(), p5, p25, pr))
      ensures Indicators(graph.data[..], layout, db, dateRange, i - 1, x', w, sc, Tracks(que5.q, que25.q, rsi.State(), parabolic.State(), p5, p25, pr))
        == Indicators(old(graph.data[..]), layout, db, dateRange, i, x, w, sc,
                      Tracks(old(que5.q), old(que25.q), old(rsi.State()), old(parabolic.State()), prev5, prev25, prevRsi))
    {
      hide IndicatorStep;
      ghost var t0 := Tracks(que5.q, que25.q, rsi.State(), parabolic.State(), prev5, prev25, prevRsi);
      IndicatorsStep(graph.data[..], layout, db, dateRange, i, x, w, sc, t0);
      x', p5, p25, pr := x, prev5, prev25, prevRsi;
      if i < |db| {
        p5, p25, pr := IndicatorPass(i, x, w, sc, que5, que25, rsi, parabolic, prev5, prev25, prevRsi);
        if i <= dateRange - 1 {
          x' := x + w;
        }
      }
    }
  }

  /** A chart whose data is set answers for every column of the canvas, with a bar of the window. */
  lemma DateDataInWindow(c: StockChart, x: real, y: real)
    requires c.Valid() && c.HasData() && c.candleWidth == c.graph.width as real / c.dateRange as real
    requires 0.0 <= x < c.graph.width as real
    ensures c.DateData(x, y).Some? && 0 <= c.DateData(x, y).value.index < c.dateRange
  {
    IndexInWindow(c.graph.width, c.dateRange, x);
  }

  /** In price mode the line under the top of the price band is the highest price, and under its bottom the lowest. */
  lemma DateDataLine(c: StockChart, x: real)
    requires c.Valid() && c.HasData() && c.candleWidth == c.graph.width as real / c.dateRange as real
    requires c.mode == PriceMode && 0.0 <= x < c.graph.width as real && c.graph.height != 120
    ensures c.DateData(x, c.layout.highLine as real).value.line == Trunc(c.maxPrice)
    ensures c.DateData(x, c.layout.lowLine as real).value.line == Trunc(c.minPrice)
  {
    IndexInWindow(c.graph.width, c.dateRange, x);
    FromPixelEnds(c.layout, c.minPrice, c.maxPrice);
  }

  /** The window of `setData` is the truncated day count, clamped to the bars available. */
  lemma WindowClamp(length: nat, days: real)
    ensures 0 <= Trunc(days) <= length ==> Window(length, days) == Trunc(days)
    ensures length < Trunc(days) ==> Window(length, days) == length
  {
  }
}
