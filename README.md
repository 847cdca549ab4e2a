# ohlcv_mock: synthetic OHLCV series and sliding window, in Dafny

`ChartComponent` draws a candlestick chart with a volume histogram fed by
made-up data. The logic behind the data lives in `src/ChartComponent.tsx`:

- `generateSampleData(numPoints)` builds the first window. It is a loop that
  starts one bar per second at `floor(now / 1000) - numPoints` with an open of
  100. Each bar closes up to one unit away from its open. The high and the low
  widen the body by a random amount below one unit. The volume is an integer
  in [500, 1500). All four prices are rounded with `toFixed(2)`, and the next
  bar opens at the close.
- `generateRandomDataPoint(prev)` makes the bar one second after `prev`, by
  the same rules, opening at `prev.close`.
- `updateData` runs once a second. It copies the window, `shift`s off the
  oldest bar, `push`es the bar generated from the newest one, and hands that
  bar and its volume point to the two chart series.
- Each bar is shown in the histogram as `{time, value: volume, color}`. The
  colour is "up" when `close > open` and "down" otherwise.

The model has four modules, one file each:

- `Rounding` (rounding.dfy): `parseFloat(x.toFixed(2))` on exact reals.
  `toFixed` rounds the magnitude to the nearest cent, with a tie going to the
  larger magnitude, and then puts the sign back. The module proves that this
  rounding is monotone, leaves cent values unchanged, and moves a value by at
  most half a cent.
- `Candles` (candle.dfy): the `Candle` record, and the four `Math.random()`
  draws one bar consumes, kept in the source's order as a `Draws` value. It
  also holds the unrounded and the stored bar, the `WellFormed` predicate and
  the volume-point mapping.
- `SeriesGenerator` (generator.dfy): `GenerateRandomDataPoint`. It also holds
  `GenerateSampleData`, an imperative loop proved equal to the `SampleData`
  specification function, and the lemmas about both.
- `Window` (window.dfy): `UpdateData`, which copies, shifts and pushes and is
  proved equal to `Advance`. It also holds the histogram of a window, repeated
  advances (`Run`), and the session-long invariants.

The clock and the random source are parameters. `nowMs` stands for
`Date.now()`. One `Draws` value per bar stands for its four `Math.random()`
results. `ValidDraws` says that each draw lies in [0, 1).

Points about the code that the model makes explicit:

- With every draw 0 the code computes `close = open + (0 - 0.5) * 2 =
  open - 1`, so `high = open` and `low = close` (`ZeroDrawsNextBar`). A move
  draw of exactly 0.5 keeps the close (`FlatDrawKeepsPrice`).
- On mount the component creates the chart, its two series and a resize
  listener; on unmount it removes the listener, the chart and the interval.
  None of this is modelled. `updateData` on an empty window reads `undefined`
  as the last bar, and `generateRandomDataPoint` throws on it; the model
  returns `Err(NoLastBar)`.
- Each bar opens at the previous stored close. In `generateSampleData` the
  next open is the unrounded close, and both are rounded the same way, so the
  stored values agree. In `generateRandomDataPoint` the open is the rounded
  `prev.close`, which equals `prev.close` when that is already a cent value.
  Every generated bar has cent prices, so continuity holds on every window
  the component builds.

## Model

| member | source | states |
|---|---|---|
| `Rounding.Round2` | src/ChartComponent.tsx:174-177 | the stored price is a whole number of cents within half a cent of the computed one; at an exact half cent the larger magnitude wins (strict bound on the side toward zero) |
| `Rounding.Round2Monotone` | src/ChartComponent.tsx:174-177 | rounding to two decimals never reverses an order between two prices |
| `Rounding.Round2OfCents` | src/ChartComponent.tsx:199-202 | rounding a price that is already in cents returns it unchanged |
| `Rounding.Round2Idempotent` | src/ChartComponent.tsx:199-202 | rounding a rounded price a second time changes nothing |
| `Candles.Max` | src/ChartComponent.tsx:193 | `Math.max`: at least both arguments and equal to one of them |
| `Candles.Min` | src/ChartComponent.tsx:194 | `Math.min`: at most both arguments and equal to one of them |
| `Candles.RawCandle` | src/ChartComponent.tsx:192-195 | the unrounded bar keeps time and open, closes `(move − 0.5) · 2` from the open, and widens the body by exactly the high and low draws; its ranges are in `RawCandleBounds` |
| `Candles.StoredCandle` | src/ChartComponent.tsx:172-179 | the pushed bar keeps the time, opens at the rounded open, has cent prices and a close within half a cent of the unrounded one; bracketing and volume bounds are in `StoredCandleWellFormed` |
| `Candles.RawCandleBounds` | src/ChartComponent.tsx:192-195 | before rounding, close − open lies in [−1, 1), high − max(open, close) and min(open, close) − low lie in [0, 1), and the volume is an integer in [500, 1500) |
| `Candles.VolumeFloorBounds` | src/ChartComponent.tsx:195 | `Math.floor(r * 1000)` lies in [0, 999] for a draw r in [0, 1) |
| `Candles.Rounded` | src/ChartComponent.tsx:197-204 | the stored bar keeps time and volume, and each of its four prices is a cent value within half a cent of the computed price |
| `Candles.StoredCandleWellFormed` | src/ChartComponent.tsx:167-179 | after rounding, low ≤ min(open, close), max(open, close) ≤ high, the prices are cents and 500 ≤ volume < 1500 |
| `Candles.ToVolumePoint` | src/ChartComponent.tsx:142-149 | the histogram point copies time and volume, and its colour is up if and only if close > open |
| `Candles.UpNeedsRisingDraw` | src/ChartComponent.tsx:192 | a bar shown in the up colour must have had a move draw above one half |
| `SeriesGenerator.GenerateRandomDataPoint` | src/ChartComponent.tsx:189-205 | the next bar is one second after the previous one, opens at its rounded close, and has volume `floor(r * 1000) + 500` for the volume draw r |
| `SeriesGenerator.NextBarContinues` | src/ChartComponent.tsx:191 | when the previous close is a cent value, as every generated close is, the next bar opens at exactly that close |
| `SeriesGenerator.NextBarCloseBound` | src/ChartComponent.tsx:191-192 | from a cent-valued previous close, the stored next close lies within one unit of it |
| `SeriesGenerator.NextBarWellFormed` | src/ChartComponent.tsx:192-204 | a bar generated from valid draws is well formed, whatever the previous bar was |
| `SeriesGenerator.NextBarExtends` | src/ChartComponent.tsx:190-191 | appending the next bar to a valid series keeps it valid (consecutive time, open equal to the previous close) |
| `SeriesGenerator.ZeroDrawsNextBar` | src/ChartComponent.tsx:190-195 | with all draws zero, the next bar is at time + 1 with open = previous close, close = low = open − 1, high = open and volume 500 |
| `SeriesGenerator.FlatDrawKeepsPrice` | src/ChartComponent.tsx:192 | a move draw of one half leaves the close at the previous close |
| `SeriesGenerator.Walk` | src/ChartComponent.tsx:166-183 | the loop pushes exactly one bar per set of draws, bar i at the start time plus i |
| `SeriesGenerator.WalkValid` | src/ChartComponent.tsx:166-183 | bar i of the walk has time start + i, the first opens at the rounded starting price, and the walk is a valid series |
| `SeriesGenerator.Count` | src/ChartComponent.tsx:166 | the loop runs numPoints times, and not at all when numPoints is 0 or less |
| `SeriesGenerator.StartTime` | src/ChartComponent.tsx:163 | the start time plus numPoints is the current time in whole seconds, rounded down |
| `SeriesGenerator.SampleData` | src/ChartComponent.tsx:161-186 | the returned window has one bar per iteration, bar i at the start time plus i; its other properties are in `SampleDataValid` |
| `SeriesGenerator.GenerateSampleData` | src/ChartComponent.tsx:161-186 | the imperative loop returns exactly the `SampleData` window for the given clock and draws |
| `SeriesGenerator.SampleDataValid` | src/ChartComponent.tsx:161-186 | exactly numPoints bars (none for 0 or less), bar i at floor(now / 1000) − numPoints + i, the first opening at 100, and a valid series |
| `Window.VolumeSeries` | src/ChartComponent.tsx:108-115 | the histogram has one point per bar, with that bar's time, its volume as the value, and the up colour exactly where the bar closed above its open |
| `Window.VolumeSeriesValid` | src/ChartComponent.tsx:108-115 | the histogram of a valid window has consecutive times and every value in [500, 1500) |
| `Window.Advance` | src/ChartComponent.tsx:131-138 | the new window has the same length, its first n − 1 bars are the old bars 1..n − 1 in order, and its last bar is the one generated from the old newest bar |
| `Window.UpdateData` | src/ChartComponent.tsx:129-153 | fails exactly on an empty window; otherwise it returns `Advance` of the old window, with the new bar and its volume point as the incremental update |
| `Window.AdvanceValid` | src/ChartComponent.tsx:131-138 | an advance keeps a valid window valid and moves its oldest and newest times forward by one second |
| `Window.AdvanceVolumeSeries` | src/ChartComponent.tsx:142-149 | the histogram after the incremental update equals the histogram of the new window |
| `Window.Run` | src/ChartComponent.tsx:119-121 | any number of advances keeps the window's length |
| `Window.RunValid` | src/ChartComponent.tsx:119-121 | after k advances the window has the same length, is still valid, and starts k seconds later |
| `Window.SessionWindow` | src/ChartComponent.tsx:103-121 | starting from 100 generated bars, the window holds exactly 100 bars at every tick, stays valid, and starts k seconds after the first generated bar after k ticks |

## Left out

- React state and hooks (`useState`, `useEffect`, `useRef`) and the component lifecycle. `setData`'s updater is modelled as a function from the old window to the new one.
- Everything done through `lightweight-charts`: creating the chart and series, price-scale options, `setData`/`update`, `remove`. The model returns the data those calls would receive: the window, the new bar and its volume point.
- The `resize` listener, which is DOM I/O.
- The `setInterval`/`clearInterval` scheduling: one advance is one step, and `Run` applies a sequence of them. The interval length of 1000 ms is not modelled.
- `Math.random` and `Date.now`: they are parameters (`Draws`, `nowMs`).
- IEEE double arithmetic, and `toFixed` producing exponent notation for magnitudes of 10^21 and more. Prices are exact reals, and the closest double to a cent value is taken to be that cent value.
- The RGBA colour strings: they appear as the two-valued `Trend`.
- `generateSampleData` with a non-integer `numPoints`: the model takes an integer. Only 100 is ever passed.
- UpdateData: the window is a Dafny sequence, which is a value. The copy made by `[...prevData]`, and the previous window staying unchanged by the in-place `shift`/`push`, are therefore given by the language rather than proved about an array.
