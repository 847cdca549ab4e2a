/** The `Candle` record, the random draws one bar consumes, the rules that
    turn an opening price and those draws into a bar, and the point of the
    volume histogram that a bar is shown as. */
module Candles {
  import opened Rounding

  /** One OHLCV bar: `time` in whole UTC seconds, four prices and a volume. */
  datatype Candle = Candle(time: int, open: real, high: real, low: real, close: real, volume: int)

  /** The four `Math.random()` results one bar consumes, in the order the
      source draws them: the move of the close, the widening of the high,
      the widening of the low, the volume. */
  datatype Draws = Draws(move: real, highExt: real, lowExt: real, vol: real)

  /** Every draw lies in the range of `Math.random()`, [0, 1). */
  predicate ValidDraws(d: Draws) {
    0.0 <= d.move < 1.0 && 0.0 <= d.highExt < 1.0 && 0.0 <= d.lowExt < 1.0 && 0.0 <= d.vol < 1.0
  }

  predicate AllValid(ds: seq<Draws>) {
    forall i :: 0 <= i < |ds| ==> ValidDraws(ds[i])
  }

  /** `Math.max` and `Math.min` on two prices. */
  function Max(a: real, b: real): (m: real)
    ensures a <= m && b <= m && (m == a || m == b)
  {
    if a >= b then a else b
  }

  function Min(a: real, b: real): (m: real)
    ensures m <= a && m <= b && (m == a || m == b)
  {
    if a <= b then a else b
  }

  /** The bar as the source computes it before rounding, from the time, the
      opening price and one set of draws (the same expressions serve the
      loop of `generateSampleData` and `generateRandomDataPoint`). */
  function RawCandle(time: int, open: real, d: Draws): (c: Candle)
    ensures c.time == time && c.open == open
    ensures c.close - c.open == (d.move - 0.5) * 2.0
    ensures c.high - Max(c.open, c.close) == d.highExt
    ensures Min(c.open, c.close) - c.low == d.lowExt
  {
    var close := open + (d.move - 0.5) * 2.0;
    Candle(time, open, Max(open, close) + d.highExt, Min(open, close) - d.lowExt, close,
           (d.vol * 1000.0).Floor + 500)
  }

  /** Before rounding, the close moves from the open by less than one unit
      either way, the high and the low widen the body by less than one unit,
      and the volume is an integer in [500, 1500). */
  lemma {:induction false} RawCandleBounds(time: int, open: real, d: Draws)
    requires ValidDraws(d)
    ensures var c := RawCandle(time, open, d);
      && c.time == time && c.open == open
      && -1.0 <= c.close - c.open < 1.0
      && 0.0 <= c.high - Max(c.open, c.close) < 1.0
      && 0.0 <= Min(c.open, c.close) - c.low < 1.0
      && 500 <= c.volume < 1500
  {
    VolumeFloorBounds(d.vol);
  }

  /** `Math.floor(r * 1000)` for `r` in [0, 1) lies in [0, 999]. */
  lemma VolumeFloorBounds(r: real)
    requires 0.0 <= r < 1.0
    ensures 0 <= (r * 1000.0).Floor < 1000
  {
    FloorMonotone(0.0, r * 1000.0);
  }

  /** The bar with each of its four prices rounded to the nearest cent
      (`parseFloat(p.toFixed(2))`), every other field kept. */
  function Rounded(c: Candle): (s: Candle)
    ensures s.time == c.time && s.volume == c.volume
    ensures IsCents(s.open) && IsCents(s.high) && IsCents(s.low) && IsCents(s.close)
    ensures -0.005 <= s.open - c.open <= 0.005 && -0.005 <= s.high - c.high <= 0.005
    ensures -0.005 <= s.low - c.low <= 0.005 && -0.005 <= s.close - c.close <= 0.005
  {
    Candle(c.time, Round2(c.open), Round2(c.high), Round2(c.low), Round2(c.close), c.volume)
  }

  /** The bar stored for an opening price and one set of draws. */
  function StoredCandle(time: int, open: real, d: Draws): (c: Candle)
    ensures c.time == time && c.open == Round2(open)
    ensures IsCents(c.open) && IsCents(c.high) && IsCents(c.low) && IsCents(c.close)
    ensures -0.005 <= c.close - RawCandle(time, open, d).close <= 0.005
  {
    Rounded(RawCandle(time, open, d))
  }

  /** What every bar the generator stores satisfies: cent prices, a low at
      or below the body, a high at or above it, and a volume in [500, 1500). */
  predicate WellFormed(c: Candle) {
    && IsCents(c.open) && IsCents(c.high) && IsCents(c.low) && IsCents(c.close)
    && c.low <= Min(c.open, c.close)
    && Max(c.open, c.close) <= c.high
    && 500 <= c.volume < 1500
  }

  /** Rounding every price keeps the high and the low around the body, so
      the bracketing survives `toFixed(2)`. */
  lemma {:induction false} StoredCandleWellFormed(time: int, open: real, d: Draws)
    requires ValidDraws(d)
    ensures WellFormed(StoredCandle(time, open, d))
  {
    var c := RawCandle(time, open, d);
    RawCandleBounds(time, open, d);
    Round2Monotone(c.low, c.open);
    Round2Monotone(c.low, c.close);
    Round2Monotone(c.open, c.high);
    Round2Monotone(c.close, c.high);
  }

  /** The colour class of a histogram bar. */
  datatype Trend = Up | Down

  /** A point of the volume histogram. */
  datatype VolumePoint = VolumePoint(time: int, value: int, color: Trend)

  /** The point the histogram shows for a bar: same time, its volume as the
      value, and the up colour exactly when the bar closed above its open. */
  function ToVolumePoint(c: Candle): (p: VolumePoint)
    ensures p.time == c.time && p.value == c.volume
    ensures p.color == Up <==> c.close > c.open
  {
    VolumePoint(c.time, c.volume, if c.close > c.open then Up else Down)
  }

  /** A bar whose draw moved the close down or not at all is shown in the
      down colour: an up bar needs a move draw above one half. */
  lemma {:induction false} UpNeedsRisingDraw(time: int, open: real, d: Draws)
    ensures ToVolumePoint(StoredCandle(time, open, d)).color == Up ==> d.move > 0.5
  {
    var c := RawCandle(time, open, d);
    if d.move <= 0.5 {
      Round2Monotone(c.close, c.open);
    }
  }
}
