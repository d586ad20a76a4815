# Stock chart: a verified model

The repository draws a daily candlestick chart into a raw RGBA pixel buffer.
Its core is in four parts:

- **The rasteriser.** `Bitmap` writes 32-bit cells of an `ImageData` buffer. It draws horizontal, vertical and Bresenham lines, solid rectangles and a full clear, and it fades the alpha byte of a rectangle.
- **The indicators.** Three streaming indicators drive the overlays: a fixed-size moving-average `Queue`, the Relative Strength Index `RSI`, and the parabolic stop-and-reverse `Parabolic`.
- **`StockChart`.** It takes a window of bars with `setData`. From them it derives:
  - the price range and the largest volume;
  - a day-over-day rate series in hundredths of a percent.

  It then redraws either the price chart or the rate chart. Each redraw has month separators, horizontal guide lines, volume bars, the indicator loop and the candlesticks. `dateData` maps a pointer position back to a bar and a value.
- **`formatPrice`.** It inserts thousands separators into the text of a number.

The model is a set of Dafny modules:

| module | file | models |
|---|---|---|
| `JsNumber` | jsnumber.dfy | `x \| 0` as truncation toward zero, `(a / b) \| 0` with a zero divisor, the clamped byte store, `Option` |
| `Raster` | raster.dfy | `src/bitmap.js`: class `Bitmap` over an `array<Cell>`; each method is proved equal to a pure function of the old buffer (`LineSpec`, `RectSpec`, `ClearSpec`, `FadeSpec`) |
| `RasterProperties` | rasterprops.dfy | what those functions mean: exactly which cells change, and to what |
| `FixedQueue` | fixedqueue.dfy | `src/technical-analysis/queue.js`: class `Queue`, specified by `Pushed`, `Ready` and `Mean` |
| `RelativeStrength` | relativestrength.dfy | `src/technical-analysis/rsi.js`: class `RSI`, specified by a step function `Step` on its fields |
| `ParabolicSar` | parabolicsar.dfy | `src/technical-analysis/parabric.js`: class `Parabolic`, specified by a step function `Step` on its fields |
| `ChartGeometry` | chartgeometry.dfy | the pure arithmetic of `src/stock-chart.js`: bands, value and pixel mappings, the scans, the rate series, the index under a column, candle and volume geometry |
| `ChartImage` | chartimage.dfy | the image every drawing routine of `src/stock-chart.js` produces, as functions of the old buffer |
| `Chart` | chart.dfy | class `StockChart`: `setData`, the `mode` setter, `dateData`, and each drawing routine as a method proved against its `ChartImage` function |
| `Utility` | utility.dfy | `formatPrice` on strings |

The source's quirks are kept as written:

- **Swapped SAR arguments.** The chart calls `parabolic.calc(high, low, close)`, while the signature is `calc(low, high, close)`.
- **A pushed -1.** `Queue` reads a pushed -1 as "not ready".
- **Rate mode has no overlays.** `#drawRateChart` passes no `toPixel`, so the rate chart shows no moving averages and no SAR; only the RSI is drawn.
- **The 0% and ±5% lines.** They are drawn whatever the rate range; only their labels, which are not modelled, depend on it.
- **`setData` always redraws the price chart,** whatever the current mode.
- **Full-width lines wrap.** A guide line `drawLine(0, y, width, y)` covers `width + 1` cells, so it also paints the first cell of row `y + 1`.

The source throws in some places. The model answers `false` or `None` there, and leaves the state as the source leaves it at the throw:

- **`setData` with an empty window.** It throws at `db[dateRange - 1]` before any field is written.
- **The `mode` setter without data.** It clears the buffer, then throws.
- **`dateData` past the bars.** It throws when the index is outside the bars, or outside the rate series in rate mode.

## Model

| member | source | states |
|---|---|---|
| JsNumber.Trunc | src/bitmap.js:23 | `\| 0` rounds toward zero: the result is the integer at most 1 away from `v` on the side of zero |
| JsNumber.DivTrunc | src/stock-chart.js:88 | a quotient truncated with `\| 0`; 0 when the divisor is zero (NaN and infinities become 0) |
| JsNumber.Clamp8 | src/bitmap.js:94 | a store into a `Uint8ClampedArray` keeps 0..255 and clamps anything outside |
| JsNumber.TruncMonotone | src/bitmap.js:69 | truncation toward zero never reverses an order |
| JsNumber.TruncWithin | src/bitmap.js:94 | a value in `[0, n]` truncates into `0..n` |
| Raster.Byte | src/bitmap.js:99-102 | `(c >> 8k) & 0xff` is a byte in 0..255 |
| Raster.PackBytes | src/bitmap.js:103 | four bytes shifted into disjoint positions form a 32-bit value from which each byte is recovered |
| Raster.Unpack | src/bitmap.js:98-104 | every 32-bit value is the packing of its four bytes |
| Raster.Color2BytesReversesBytes | src/bitmap.js:98-104 | `#color2bytes` reverses the byte order: byte k of the result is byte 3-k of the colour |
| Raster.Color2BytesIsPack | src/bitmap.js:98-104 | `#color2bytes(0xRRGGBBAA)` is `A<<24 \| B<<16 \| G<<8 \| R` taken modulo 2^32 |
| Raster.Color2BytesInvolution | src/bitmap.js:98-104 | applying `#color2bytes` twice gives back the colour modulo 2^32 |
| Raster.Color2BytesAlpha | src/bitmap.js:98-104 | the top byte of the converted colour is the colour's low (alpha) byte |
| Raster.CellsOfMember | src/bitmap.js:32 | a cell is written by a point list iff some point of the list has that linear index |
| Raster.RowRun | src/bitmap.js:31 | the run for a horizontal line has exactly `n` points |
| Raster.RowRunAt | src/bitmap.js:30-32 | point `i` of a horizontal run is `i` columns to the right of the start |
| Raster.ColumnRun | src/bitmap.js:39 | the run for a vertical line has exactly `n` points |
| Raster.ColumnRunAt | src/bitmap.js:38-40 | point `i` of a vertical run is `i` rows below the start |
| Raster.BresenhamStep | src/bitmap.js:53-61 | one Bresenham step keeps the loop invariant, moves each coordinate by at most one towards the target, and strictly shrinks the distance left |
| Raster.BresenhamAdvance | src/bitmap.js:50-61 | one turn of the loop: the stored cell, the new `x1`, `y1` and `err` as the source computes them, and the invariant |
| Raster.BresenhamArrive | src/bitmap.js:50-52 | at the target the loop stores the target cell and stops |
| Raster.BresenhamStart | src/bitmap.js:43-47 | the set-up `dx`, `dy`, `sx`, `sy`, `err = dx - dy` establishes the loop invariant, and the line is the path from there |
| Raster.FadeSpan | src/bitmap.js:90-95 | fading a row of cells keeps the buffer's length |
| Raster.FadeRows | src/bitmap.js:89-95 | fading `rows` rows keeps the buffer's length |
| Raster.PaintTwice | src/bitmap.js:72-74 | painting two cell sets one after the other paints their union |
| Raster.RectRowDone | src/bitmap.js:72-74 | filling the first row and then the remaining rows fills the whole rectangle |
| Raster.Bitmap.constructor | src/bitmap.js:10-14 | a `width x height` buffer of transparent black cells |
| Raster.Bitmap.Store | src/bitmap.js:32 | a typed-array store changes the addressed cell and nothing else, and is ignored outside the buffer |
| Raster.Bitmap.DrawLine | src/bitmap.js:20-64 | the buffer becomes `LineSpec`: the converted colour painted over the cells of the truncated line, and only those |
| Raster.Bitmap.DrawRow | src/bitmap.js:26-33 | the horizontal loop paints exactly the cells of `HorizontalPoints` |
| Raster.Bitmap.DrawColumn | src/bitmap.js:34-41 | the vertical loop paints exactly the cells of `VerticalPoints` |
| Raster.Bitmap.DrawBresenham | src/bitmap.js:42-63 | the Bresenham loop terminates and paints exactly the cells of `LinePoints` |
| Raster.Bitmap.DrawRect | src/bitmap.js:66-75 | the buffer becomes `RectSpec`: the converted colour over the truncated rectangle, and only there |
| Raster.Bitmap.FillSpan | src/bitmap.js:73-74 | the inner loop paints `n` consecutive cells from `o` |
| Raster.Bitmap.Clear | src/bitmap.js:77-82 | every cell becomes the converted colour |
| Raster.Bitmap.RectAlpha | src/bitmap.js:84-96 | the buffer becomes `FadeSpec`: every cell of the truncated rectangle faded, and nothing else |
| Raster.Bitmap.FadeRow | src/bitmap.js:90-95 | the inner loop fades `n` consecutive cells from `o` |
| RasterProperties.HorizontalCells | src/bitmap.js:26-33 | a horizontal line writes exactly the cells of its row from `min(x1, x2)` to `max(x1, x2)` inclusive, whatever the argument order |
| RasterProperties.VerticalCells | src/bitmap.js:34-41 | a vertical line writes exactly the cells of its column at rows `min(y1, y2)` to `max(y1, y2)` inclusive |
| RasterProperties.BresenhamEnds | src/bitmap.js:49-52 | the Bresenham path starts at the current point, ends at the target, and meets the target only at its end |
| RasterProperties.BresenhamSteps | src/bitmap.js:53-61 | along the path each coordinate moves by at most one per step, never away from the target |
| RasterProperties.BresenhamBox | src/bitmap.js:42-63 | every point of the path lies in the box spanned by its two ends |
| RasterProperties.LineEnds | src/bitmap.js:42-63 | a general line starts with `(x1, y1)` and stops right after `(x2, y2)` |
| RasterProperties.LineSteps | src/bitmap.js:42-63 | each step of a general line moves each coordinate by at most one towards the target |
| RasterProperties.LineBox | src/bitmap.js:42-63 | a general line stays within the box of its ends |
| RasterProperties.DiagonalExample | src/bitmap.js:42-63 | the line (0,0)→(3,3) is exactly the four diagonal points |
| RasterProperties.RectCellsMember | src/bitmap.js:71-74 | a rectangle covers exactly the `w` cells starting at `o + r * pitch` for each row `r` below `rows` |
| RasterProperties.RectSpecCells | src/bitmap.js:66-75 | after `drawRect` a cell holds the converted colour iff it lies in one of the `h` rows of `w` cells from `y * width + x`, all truncated; every other cell is unchanged |
| RasterProperties.ClearDefault | src/bitmap.js:77-79 | `clear()` without a colour zeroes every cell |
| RasterProperties.ClearBytes | src/bitmap.js:77-82 | after `clear(color)` byte k of every cell is byte 3-k of the colour |
| RasterProperties.TopByte | src/bitmap.js:91-94 | writing the top byte of a cell leaves its other three bytes alone |
| RasterProperties.FadeLayout | src/bitmap.js:91-94 | a faded cell keeps its low three bytes and takes the faded alpha as its top byte |
| RasterProperties.FadedAlpha | src/bitmap.js:93-94 | the alpha byte written back is a byte |
| RasterProperties.AlphaIsTopByte | src/bitmap.js:91 | byte +3 of a little-endian cell is its top byte |
| RasterProperties.FadeKeepsColour | src/bitmap.js:91-94 | fading never changes the R, G or B byte |
| RasterProperties.FadeAlpha | src/bitmap.js:92-94 | a zero alpha stays 0; a nonzero alpha `a` becomes `(a * alpha) \| 0`, clamped to a byte |
| RasterProperties.FadeTransparent | src/bitmap.js:93 | a fully transparent cell is left untouched |
| RasterProperties.FadeDims | src/bitmap.js:92-94 | for `0 <= alpha <= 1` the new alpha is exactly `trunc(a * alpha)` and never above the old one |
| RasterProperties.ScaledAlpha | src/bitmap.js:94 | a byte scaled by a factor in [0, 1] needs no clamping |
| RasterProperties.RectCellsFrom | src/bitmap.js:71-74 | no cell of a rectangle lies before its first cell |
| RasterProperties.FadeRowsCells | src/bitmap.js:88-95 | after fading `rows` rows, a cell is faded iff it is in the rectangle; the others are unchanged |
| RasterProperties.FadeSpecCells | src/bitmap.js:84-96 | after `rectAlpha` a cell is faded iff it lies in the truncated rectangle; every other cell is unchanged |
| FixedQueue.Filled | src/technical-analysis/queue.js:10-11 | a new queue has `size` slots, all -1 |
| FixedQueue.Mean | src/technical-analysis/queue.js:20 | `calc` has a value iff the queue has a slot: `reduce` without a start value throws on an empty array |
| FixedQueue.Queue.constructor | src/technical-analysis/queue.js:9-12 | the slots of a new queue are `size` sentinels |
| FixedQueue.Queue.Push | src/technical-analysis/queue.js:14-18 | the new slots are the old ones with `v` appended and the oldest dropped; the answer is whether the oldest slot is no longer -1 |
| FixedQueue.PushedLength | src/technical-analysis/queue.js:15-16 | a push keeps the number of slots |
| FixedQueue.PushedFifo | src/technical-analysis/queue.js:15-16 | a push is first in, first out: `q[1..] + [v]`, with `v` in the newest slot |
| FixedQueue.PushAllShifts | src/technical-analysis/queue.js:15-16 | after a series of pushes the slots are the last `size` of old slots followed by the pushed values |
| FixedQueue.ReadyAfter | src/technical-analysis/queue.js:17 | after pushing values other than -1 into a new queue, it is ready iff at least `size` values were pushed |
| FixedQueue.KeepsLast | src/technical-analysis/queue.js:14-18 | once `size` values are pushed, the queue holds exactly the last `size` of them |
| FixedQueue.MeanOfLast | src/technical-analysis/queue.js:20 | once full, `calc` is the mean of the last `size` pushed values |
| FixedQueue.MeanOf | src/technical-analysis/queue.js:20 | `calc` is the sum of the slots divided by their number |
| FixedQueue.MeanExample | src/technical-analysis/queue.js:14-20 | pushing 1, 2 and 3 into a queue of 3 makes it ready with mean 2 |
| RelativeStrength.RSI.constructor | src/technical-analysis/rsi.js:11-13 | a new RSI has the given period (14 by default), no deltas, no last price and reading 0 |
| RelativeStrength.RSI.Push | src/technical-analysis/rsi.js:17-48 | the new fields and the answer are those of `Step` on the old fields |
| RelativeStrength.SumMoves | src/technical-analysis/rsi.js:31-40 | the accumulation loop yields the sum of the up moves and the sum of the magnitudes of the down moves |
| RelativeStrength.SumsNonNegative | src/technical-analysis/rsi.js:31-40 | both sums are non-negative |
| RelativeStrength.SumsZero | src/technical-analysis/rsi.js:43 | `up + down == 0` iff every delta is 0 |
| RelativeStrength.ReadingRange | src/technical-analysis/rsi.js:46 | the reading lies in 0..100, and is 100 iff there is no down move |
| RelativeStrength.NegativePrice | src/technical-analysis/rsi.js:18-19 | a negative price changes nothing and answers false |
| RelativeStrength.FirstPrice | src/technical-analysis/rsi.js:21-24 | while no last price is held, a push only records the price and answers false |
| RelativeStrength.Appends | src/technical-analysis/rsi.js:26-29 | otherwise the delta is appended and `last` becomes the price; below `period` deltas the push answers false; from `period` deltas on, the oldest delta is dropped |
| RelativeStrength.Readings | src/technical-analysis/rsi.js:28-47 | with `period` deltas the push answers true iff some delta is nonzero; when it does, the reading is `trunc(100 * up / (up + down))` in 0..100; otherwise the reading is kept |
| RelativeStrength.StepKeeps | src/technical-analysis/rsi.js:28-47 | between pushes the history holds fewer than `period` deltas and the reading stays in 0..100 |
| ParabolicSar.Parabolic.constructor | src/technical-analysis/parabric.js:16-18 | a new indicator has the given step and the initial fields |
| ParabolicSar.Parabolic.Calc | src/technical-analysis/parabric.js:20-51 | the new fields are those of `Step` on the old fields, and the answer is the new stop |
| ParabolicSar.WarmUp | src/technical-analysis/parabric.js:21-22 | while the previous low, high and close are all zero, a call only stores the bar; the first call answers 0 |
| ParabolicSar.Establish | src/technical-analysis/parabric.js:23-32 | the establishing call sets the factor to the step and the trend to `close > prevClose`; an uptrend takes EP = high and SAR = prevHigh, a downtrend EP = low and SAR = prevLow |
| ParabolicSar.ExtremeFollows | src/technical-analysis/parabric.js:36-37 | while an uptrend holds EP never falls and is at least the high; while a downtrend holds EP never rises and is at most the low |
| ParabolicSar.Flip | src/technical-analysis/parabric.js:42-45 | on a reversal the factor goes back to the step and the stop becomes the extreme point held before the call |
| ParabolicSar.Accelerate | src/technical-analysis/parabric.js:38-41 | without a reversal the factor grows by the step only when EP moved and the factor was below 0.2, and the stop moves by the factor towards EP |
| ParabolicSar.StopBetween | src/technical-analysis/parabric.js:41 | without a reversal and with a factor in [0, 1], the new stop lies between the old stop and the new EP |
| ParabolicSar.Between | src/technical-analysis/parabric.js:41 | a step of `f` in [0, 1] from `a` towards `b` stays between `a` and `b` |
| ParabolicSar.FactorStays | src/technical-analysis/parabric.js:23-45 | with a positive step the factor is always unset or in `[deltaAF, 0.2 + deltaAF)` |
| ParabolicSar.StoresBar | src/technical-analysis/parabric.js:48-50 | every call stores its low, high and close as the previous bar |
| ChartGeometry.Bands | src/stock-chart.js:66-68 | the constructor's bands: `lowLine = height - 110`, `highLine = 10`, `lowVolumeLine = height - 10` and `highVolumeLine = height - 90`, an 80-row volume band |
| ChartGeometry.ToPixelEnds | src/stock-chart.js:400-405 | on a nonempty range, `#toPixelInRange` maps `min` to `lowLine` and `max` to `highLine` |
| ChartGeometry.ToPixelMonotone | src/stock-chart.js:400-405 | a higher value never maps to a lower point on the screen |
| ChartGeometry.FromPixelEnds | src/stock-chart.js:414-419 | `#fromPixelInRange` maps `highLine` to `trunc(max)` and `lowLine` to `trunc(min)` |
| ChartGeometry.LowestLowIs | src/stock-chart.js:119-135 | the minimum price is at most every low of the window, and equals one of them unless no low is below `MAX_VALUE` |
| ChartGeometry.HighestHighIs | src/stock-chart.js:120-135 | the maximum price is at least every high and at least `MIN_VALUE`, and equals one of them or `MIN_VALUE` |
| ChartGeometry.MostVolumeIs | src/stock-chart.js:121-135 | the maximum volume is at least every volume and at least 0, and equals one of them or 0 |
| ChartGeometry.RateSeries | src/stock-chart.js:140-159 | the rate series has `dateRange` entries; the oldest is `[0, 0, 0, 0]`, and every other entry `i` holds the rates of bar `i` against the close of bar `i + 1` |
| ChartGeometry.TopRateIs | src/stock-chart.js:139-155 | the maximum rate is at least every high rate outside the baseline, and at least `MIN_VALUE` |
| ChartGeometry.BottomRateIs | src/stock-chart.js:138-155 | the minimum rate is at most every low rate outside the baseline, and at most `MAX_VALUE` |
| ChartGeometry.RateOfSame | src/stock-chart.js:147-150 | a price equal to the previous close has rate 0 |
| ChartGeometry.IndexInWindow | src/stock-chart.js:87-90 | with `candleWidth = width / dateRange`, every column of the canvas falls on a displayed bar in `[0, dateRange - 1]` |
| ChartGeometry.CandleHeight | src/stock-chart.js:436-438 | a candle body is at least one row high, even when open equals close |
| ChartGeometry.CandleTopIsMax | src/stock-chart.js:433-434 | the top edge of a body is at `toPixel(max(open, close))` |
| ChartGeometry.VolumeHeightBound | src/stock-chart.js:453 | a volume no larger than the maximum gives a bar of at most `lowVolumeLine - highVolumeLine - 1` rows |
| ChartImage.SeparatorsStep | src/stock-chart.js:193-200 | one turn of the separator loop draws a line at `x` exactly when the month changes |
| ChartImage.SeparatorsAtMonthStarts | src/stock-chart.js:190-200 | the separator loop draws a line at the left edge of exactly those bars whose month differs from the bar before them in time |
| ChartImage.VolumeBarsStep | src/stock-chart.js:218-221 | one turn of the volume loop draws the bar of bar `i` at `x` and moves on by `w` |
| ChartImage.VolumeBarCells | src/stock-chart.js:452-456 | a volume bar of positive height `h` fills the `h` rows just above `lowVolumeLine` over its columns; nothing else changes |
| ChartImage.StartTracks | src/stock-chart.js:225-231 | the indicator loop starts with queues of 5 and 25 slots |
| ChartImage.AverageStep | src/stock-chart.js:240-252 | one moving-average turn keeps its queue's number of slots |
| ChartImage.PriceOverlays | src/stock-chart.js:239-257 | the overlays of a bar keep the queues at 5 and 25 slots |
| ChartImage.PriceOverlaysStages | src/stock-chart.js:239-257 | the overlays are the 5-day average, then the 25-day average, then the SAR mark, with the SAR fed `(high, low)` in the low and high positions |
| ChartImage.RsiStep | src/stock-chart.js:259-264 | the RSI part changes only the RSI and its previous row |
| ChartImage.IndicatorStep | src/stock-chart.js:236-264 | a pass of the indicator loop keeps the queues at 5 and 25 slots |
| ChartImage.IndicatorStepParts | src/stock-chart.js:236-264 | a pass is the price overlays, when there is a scale, followed by the RSI |
| ChartImage.IndicatorsStep | src/stock-chart.js:232-268 | a bar past the data is skipped; a bar of the data is drawn, and `x` moves on only inside the window |
| ChartImage.WarmUpDrawsNothing | src/stock-chart.js:242-262 | bars older than the window, and its oldest bar, only warm the indicators up: nothing is drawn for them |
| ChartImage.RateModeOnlyRsi | src/stock-chart.js:239 | without `toPixel` the averages and the SAR are neither advanced nor drawn; before the RSI holds a price, nothing is drawn |
| ChartImage.SarSeesHighAsLow | src/stock-chart.js:254 | the chart's SAR steps with the bar's high in the low position and its low in the high position |
| ChartImage.FirstAverageSilent | src/stock-chart.js:242 | an average is never joined to row 0: its first plotted point draws nothing |
| ChartImage.CandlesStep | src/stock-chart.js:324-327 | one turn of the candlestick loop draws bar `i` at `x` and moves on by `w` |
| ChartImage.PriceCandles | src/stock-chart.js:325-326 | the price chart draws each bar from its open, high, low and close |
| ChartImage.RateCandles | src/stock-chart.js:372-373 | the rate chart draws each entry of the rate series as a candle |
| ChartImage.CandleBodyCells | src/stock-chart.js:432-443 | the body fills `CandleHeight` rows from `toPixel(max(open, close))` over the candle width, in the up colour iff `open < close` |
| ChartImage.CostLinesStep | src/stock-chart.js:307-318 | each average cost strictly inside the price range draws a line across the canvas at its pixel row |
| ChartImage.CostOutOfRange | src/stock-chart.js:308 | a cost outside the open price range draws nothing |
| ChartImage.PriceImageStages | src/stock-chart.js:302-329 | the price chart is the common part with the price scale, then the cost lines, then the candles of the window |
| ChartImage.RateImageStages | src/stock-chart.js:355-376 | the rate chart is the common part without a scale, then the 0% and ±5% lines, then the candles of the rate series |
| ChartImage.CommonImageStages | src/stock-chart.js:183-269 | the common part is a clear, the separators, the guide lines, the volume bars and the indicator loop from `dateRange + 25` down to 0 |
| ChartImage.RedrawForgets | src/stock-chart.js:184 | a redraw starts from a cleared buffer, so what was drawn before does not matter |
| ChartImage.FullWidthLineWraps | src/stock-chart.js:203 | a guide line across the whole width also paints the first cell of the next row |
| ChartImage.NextRowStart | src/bitmap.js:26-33 | the row `drawLine(0, y, width, y)` includes the cell at index `(y + 1) * width` |
| ChartImage.PaintedAt | src/bitmap.js:32 | a painted cell holds the paint colour |
| Chart.Window | src/stock-chart.js:115-117 | the window is the truncated day count, at most the number of bars |
| Chart.WindowClamp | src/stock-chart.js:115-117 | a day count within the bars is kept; a larger one is clamped to the number of bars |
| Chart.Reversed | src/stock-chart.js:171 | the reversal puts entry `|s| - 1 - k` at position `k` |
| Chart.ScanWindow | src/stock-chart.js:119-135 | the scan loop yields the lowest low, the highest high and the largest volume of the window |
| Chart.RateScan | src/stock-chart.js:138-159 | the rate loop and the reversal yield the rate series with its minimum and maximum |
| Chart.StockChart.constructor | src/stock-chart.js:59-69 | a new chart is in price mode without data, on a transparent buffer with the constructor's bands |
| Chart.StockChart.SetData | src/stock-chart.js:111-175 | an empty window fails and changes nothing; otherwise the fields take the scans, `candleWidth = width / dateRange` and the rate series, and the buffer shows the price chart whatever the mode |
| Chart.StockChart.Load | src/stock-chart.js:161-171 | the field updates of `setData` |
| Chart.StockChart.SetMode | src/stock-chart.js:72-81 | the mode is set; with data the buffer shows the price chart in price mode and the rate chart otherwise; without data the buffer is cleared and the call fails |
| Chart.StockChart.DateData | src/stock-chart.js:86-103 | the index is `dateRange - trunc(x / candleWidth) - 1`, raised to 0; there is an answer iff that bar exists, and in rate mode its rate entry too |
| Chart.DateDataInWindow | src/stock-chart.js:86-103 | after `setData`, every column of the canvas has an answer with an index in the window |
| Chart.DateDataLine | src/stock-chart.js:101 | in price mode the row `highLine` reads as `trunc(maxPrice)` and `lowLine` as `trunc(minPrice)` |
| Chart.StockChart.ShowCanvasCommon | src/stock-chart.js:273 | the buffer becomes `rectAlpha(0, 0, 50, height, .25)`: the first 50 cells of each of the `height` rows are faded to a quarter of their opacity; on a canvas narrower than 50 cells each run spills into the next row, so some cells are faded twice |
| Chart.StockChart.HorizontalLine | src/stock-chart.js:203-214 | a line across the whole canvas at row `y` |
| Chart.StockChart.DrawChart | src/stock-chart.js:302-329 | the buffer becomes the price chart `PriceImage` of the fields |
| Chart.StockChart.DrawRateChart | src/stock-chart.js:355-376 | the buffer becomes the rate chart `RateImage` of the fields |
| Chart.StockChart.DrawRateLines | src/stock-chart.js:360-365 | the 0%, +5% and -5% lines, always drawn |
| Chart.StockChart.DrawCostLines | src/stock-chart.js:307-318 | the loop over the average costs draws `CostLines` |
| Chart.StockChart.DrawCandles | src/stock-chart.js:321-328 | the candlestick loop draws the candles of the window, the oldest at the left edge |
| Chart.StockChart.DrawCandlestick | src/stock-chart.js:432-443 | the wick and then the body of one candle |
| Chart.StockChart.DrawVolumeBar | src/stock-chart.js:452-456 | one volume bar, or nothing when its height is not positive |
| Chart.StockChart.DrawChartCommon | src/stock-chart.js:183-270 | the buffer becomes `CommonImage` |
| Chart.StockChart.DrawGridLines | src/stock-chart.js:203-214 | the price-range, volume-band and RSI guide lines |
| Chart.StockChart.DrawSeparators | src/stock-chart.js:190-200 | the separator loop draws `Separators`, hence a line at every month start |
| Chart.StockChart.DrawVolumeBars | src/stock-chart.js:217-221 | the volume loop draws the bars of the window |
| Chart.StockChart.DrawAverage | src/stock-chart.js:240-252 | one moving average: the push, the mean's row, and the joining line outside the warm-up |
| Chart.StockChart.DrawOverlays | src/stock-chart.js:239-257 | both averages and the SAR mark of bar `i`, as `PriceOverlays` |
| Chart.StockChart.DrawSar | src/stock-chart.js:254-256 | the SAR steps on `(high, low, close)` in that order, and its three-row mark is drawn in the trend's colour |
| Chart.StockChart.DrawRsi | src/stock-chart.js:259-264 | the RSI push and, once it reads, its line from the previous row |
| Chart.StockChart.IndicatorPass | src/stock-chart.js:236-264 | the body of the indicator loop for a bar of the data, as `IndicatorStep` |
| Chart.StockChart.IndicatorTurn | src/stock-chart.js:232-268 | one turn of the indicator loop, as one step of `Indicators` |
| Chart.StockChart.DrawIndicators | src/stock-chart.js:224-269 | the indicator loop from `dateRange + 25` down to 0 draws `Indicators` from the starting state |
| Utility.DigitRun | src/utility.js:6 | the digit run from a position stays within the string |
| Utility.GroupsIff | src/utility.js:6 | the lookahead `(?=(\d{3})+(?!\d))` holds at a position iff the digit run there is a positive multiple of 3 |
| Utility.RunBelowThree | src/utility.js:6 | without three digits ahead, the run is shorter than 3 |
| Utility.CommaIff | src/utility.js:6 | a comma follows a digit iff the number of digits after it in the same run is a positive multiple of 3 |
| Utility.CommaBetweenDigits | src/utility.js:6 | a comma is inserted only between two digits |
| Utility.Uncomma | src/utility.js:6 | removing the commas leaves no comma |
| Utility.UncommaFormat | src/utility.js:6 | removing the commas from the rewritten tail gives the original tail without commas |
| Utility.RoundTrip | src/utility.js:5-7 | for a text without commas, deleting every comma of `formatPrice` gives back the input |
| Utility.ShortRunsUnchanged | src/utility.js:6 | a text with no digit run longer than 3 is returned unchanged |
| Utility.Example | src/utility.js:5-7 | "1234567" becomes "1,234,567" |

## Left out

- DOM and canvas output: `getContext`, `putImageData`, `fillText`, `fillStyle` and every label in `#showCanvas`, `#showCanvasByRate` and `#showCanvasCommon`. Only the `rectAlpha` call of `#showCanvasCommon` writes the buffer, and it is modelled. The constructor takes the canvas size as two numbers.
- Raster.Bitmap.constructor and Chart.StockChart.constructor require a positive width and height. In the source, `new ImageData(width, height)` throws an `IndexSizeError` when either size is 0, as it is for a hidden canvas whose `clientWidth` or `clientHeight` is 0; the model has no such failing construction.
- src/chart-pane.js, dist/main.js and webpack.config.js are not part of this model. They hold the browser UI, the random demo data and the build.
- The `'-'` split of the dates at src/stock-chart.js:112-113 is not modelled. Dates enter already split into year, month and day texts.
- The text fields of `dateData` are not modelled: the joined date, the formatted prices and the percentages. Neither is JavaScript's number-to-string conversion. `formatPrice` is modelled on the text of a number.
- IEEE-754 arithmetic is not modelled. Prices, rates, the factor and the stop are exact `real`s, and there is no NaN except where the source turns one into 0 with `| 0`. `| 0` is truncation toward zero: values are assumed to lie inside the 32-bit range, so ToInt32's wrap-around, including that of `err << 1`, is not modelled.
- `Number.MAX_VALUE` and `Number.MIN_VALUE` are explicit constants, `MIN_VALUE` being the smallest positive double.
- Platform endianness is fixed to little-endian, which makes byte +3 of a cell its alpha byte.
- Raster.Bitmap.Store: stores outside the buffer are ignored, as for a JavaScript typed array, instead of being excluded by preconditions. No drawing operation requires its arguments to lie inside the surface.
- `averageCost` may be a number or an array. The model always holds a list; a single cost is a list of one.
- The `value` getter of `RSI` and `getTrend` of `Parabolic` are the fields themselves (`RelativeStrength.RSI.Value`, `ParabolicSar.Parabolic.GetTrend`), so their contracts are the step lemmas above.
- The `mode` setter accepts any value; every value other than `PRICE_MODE` draws the rate chart, as in the source.
- Chart.StockChart.DateData: only the index and the `line` value are modelled, not the texts.
