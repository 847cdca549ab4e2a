/** The synthetic series: `generateSampleData`, which fills the first
    window, and `generateRandomDataPoint`, which makes the bar after a given
    one. The clock and `Math.random()` are parameters: the current time in
    milliseconds and one `Draws` value per bar. */
module SeriesGenerator {
  import opened Rounding
  import opened Candles

  /** Price every generated series starts from. */
  const StartPrice: real := 100.0

  /** What the generator promises of a run of bars, oldest first: every bar
      well formed, each one second after the one before it, and each opening
      at the price the one before it closed at. */
  predicate ValidSeries(w: seq<Candle>) {
    && (forall i :: 0 <= i < |w| ==> WellFormed(w[i]))
    && (forall i :: 0 < i < |w| ==> w[i].time == w[i - 1].time + 1 && w[i].open == w[i - 1].close)
  }

  /** `generateRandomDataPoint`: the bar one second after `prev`, opening at
      the rounded close of `prev`. */
  function GenerateRandomDataPoint(prev: Candle, d: Draws): (c: Candle)
    ensures c.time == prev.time + 1
    ensures c.open == Round2(prev.close)
    ensures c.volume == (d.vol * 1000.0).Floor + 500
  {
    StoredCandle(prev.time + 1, prev.close, d)
  }

  /** For a bar whose close is already a cent value, as every generated
      bar's is, the next bar opens at exactly that close. */
  lemma NextBarContinues(prev: Candle, d: Draws)
    requires IsCents(prev.close)
    ensures GenerateRandomDataPoint(prev, d).open == prev.close
  {
    Round2OfCents(prev.close);
  }

  /** From a cent-valued close, the next bar's stored close is at most one
      unit away: the move of less than one unit either way survives rounding
      because rounding is monotone and keeps whole units. */
  lemma {:induction false} NextBarCloseBound(prev: Candle, d: Draws)
    requires IsCents(prev.close) && ValidDraws(d)
    ensures var c := GenerateRandomDataPoint(prev, d);
      prev.close - 1.0 <= c.close <= prev.close + 1.0
  {
    var raw := RawCandle(prev.time + 1, prev.close, d);
    RawCandleBounds(prev.time + 1, prev.close, d);
    CentsShift(prev.close, -1);
    CentsShift(prev.close, 1);
    Round2OfCents(prev.close - 1.0);
    Round2OfCents(prev.close + 1.0);
    Round2Monotone(prev.close - 1.0, raw.close);
    Round2Monotone(raw.close, prev.close + 1.0);
  }

  /** A bar generated from valid draws is well formed, whatever came before. */
  lemma {:induction false} NextBarWellFormed(prev: Candle, d: Draws)
    requires ValidDraws(d)
    ensures WellFormed(GenerateRandomDataPoint(prev, d))
  {
    StoredCandleWellFormed(prev.time + 1, prev.close, d);
  }

  /** The bars the loop of `generateSampleData` pushes from a given time and
      (unrounded) opening price, one per set of draws. The next bar opens at
      the unrounded close, as the loop's `open = close` does. */
  function Walk(time: int, open: real, ds: seq<Draws>): (w: seq<Candle>)
    ensures |w| == |ds|
    ensures forall i :: 0 <= i < |w| ==> w[i].time == time + i
    decreases |ds|
  {
    if ds == [] then []
    else [StoredCandle(time, open, ds[0])] + Walk(time + 1, RawCandle(time, open, ds[0]).close, ds[1..])
  }

  /** Unfolding a walk over a slice of the draws by one bar. */
  lemma WalkStep(time: int, open: real, draws: seq<Draws>, i: int, n: int)
    requires 0 <= i < n <= |draws|
    ensures Walk(time, open, draws[i..n])
         == [StoredCandle(time, open, draws[i])] + Walk(time + 1, RawCandle(time, open, draws[i]).close, draws[i + 1..n])
  {
    assert draws[i..n][1..] == draws[i + 1..n];
  }

  /** Number of iterations of `for (let i = 0; i < numPoints; i++)`. */
  function Count(numPoints: int): (n: nat)
    ensures numPoints <= n && (n == 0 || n == numPoints)
  {
    if numPoints < 0 then 0 else numPoints
  }

  /** Time of the first bar: `Math.floor(Date.now() / 1000) - numPoints`.
      Dafny's `/` floors when the divisor is positive, as `Math.floor` does. */
  function StartTime(nowMs: int, numPoints: int): (t: int)
    ensures (t + numPoints) * 1000 <= nowMs < (t + numPoints + 1) * 1000
  {
    nowMs / 1000 - numPoints
  }

  /** The window `generateSampleData(numPoints)` returns at time `nowMs`
      when `Math.random()` yields `draws`, four values per bar. */
  function SampleData(nowMs: int, numPoints: int, draws: seq<Draws>): (w: seq<Candle>)
    requires numPoints <= |draws|
    ensures |w| == Count(numPoints)
    ensures forall i :: 0 <= i < |w| ==> w[i].time == StartTime(nowMs, numPoints) + i
  {
    Walk(StartTime(nowMs, numPoints), StartPrice, draws[..Count(numPoints)])
  }

  /** `generateSampleData`: the loop that pushes one bar per iteration,
      carrying the time and the unrounded close to the next iteration. */
  method GenerateSampleData(nowMs: int, numPoints: int, draws: seq<Draws>) returns (data: seq<Candle>)
    requires numPoints <= |draws|
    ensures data == SampleData(nowMs, numPoints, draws)
  {
    data := [];
    var time := nowMs / 1000 - numPoints;
    var open := 100.0;
    ghost var n := Count(numPoints);
    var i := 0;
    while i < numPoints
      invariant 0 <= i <= n
      invariant data + Walk(time, open, draws[i..n]) == SampleData(nowMs, numPoints, draws)
    {
      var d := draws[i];
      var close := open + (d.move - 0.5) * 2.0;
      var high := Max(open, close) + d.highExt;
      var low := Min(open, close) - d.lowExt;
      var volume := (d.vol * 1000.0).Floor + 500;
      var bar := Candle(time, Round2(open), Round2(high), Round2(low), Round2(close), volume);
      WalkStep(time, open, draws, i, n);
      assert bar == StoredCandle(time, open, d);
      data := data + [bar];
      open := close;
      time := time + 1;
      i := i + 1;
    }
  }

  /** Every bar of a walk has the walk's time plus its index, the first opens
      at the rounded starting price, and the walk is a valid series when its
      draws are valid. */
  lemma {:induction false} WalkValid(time: int, open: real, ds: seq<Draws>)
    requires AllValid(ds)
    ensures var w := Walk(time, open, ds);
      && ValidSeries(w)
      && (forall i :: 0 <= i < |w| ==> w[i].time == time + i)
      && (|w| > 0 ==> w[0].open == Round2(open))
    decreases |ds|
  {
    if ds != [] {
      var raw := RawCandle(time, open, ds[0]);
      var rest := Walk(time + 1, raw.close, ds[1..]);
      assert AllValid(ds[1..]) by {
        forall i | 0 <= i < |ds[1..]| ensures ValidDraws(ds[1..][i]) { assert ds[1..][i] == ds[i + 1]; }
      }
      WalkValid(time + 1, raw.close, ds[1..]);
      StoredCandleWellFormed(time, open, ds[0]);
      var w := [StoredCandle(time, open, ds[0])] + rest;
      assert forall i :: 0 < i < |w| ==> w[i] == rest[i - 1];
      assert |rest| > 0 ==> rest[0].open == w[0].close;
    }
  }

  /** The properties of `generateSampleData`: exactly `numPoints` bars (none
      for zero or less), bar `i` at `floor(now / 1000) - numPoints + i`, the
      first opening at 100, and a valid series when the draws are valid. */
  lemma SampleDataValid(nowMs: int, numPoints: int, draws: seq<Draws>)
    requires numPoints <= |draws|
    requires AllValid(draws[..Count(numPoints)])
    ensures var w := SampleData(nowMs, numPoints, draws);
      && |w| == Count(numPoints)
      && (numPoints <= 0 ==> w == [])
      && (forall i :: 0 <= i < |w| ==> w[i].time == nowMs / 1000 - numPoints + i)
      && (|w| > 0 ==> w[0].open == StartPrice)
      && ValidSeries(w)
  {
    WalkValid(StartTime(nowMs, numPoints), StartPrice, draws[..Count(numPoints)]);
    assert IsCents(StartPrice) by { assert StartPrice * 100.0 == 10000 as real; }
    Round2OfCents(StartPrice);
  }

  /** The bar after a valid series continues it: appending it keeps the
      series valid. */
  lemma NextBarExtends(w: seq<Candle>, d: Draws)
    requires |w| > 0 && ValidSeries(w) && ValidDraws(d)
    ensures ValidSeries(w + [GenerateRandomDataPoint(w[|w| - 1], d)])
  {
    NextBarWellFormed(w[|w| - 1], d);
    NextBarContinues(w[|w| - 1], d);
  }

  /** With every draw zero the next bar is fully determined: one second
      later, opening at the previous close, closing one unit lower, the high
      at the open, the low at the close, volume 500. */
  lemma ZeroDrawsNextBar(prev: Candle)
    requires IsCents(prev.close)
    ensures var c := GenerateRandomDataPoint(prev, Draws(0.0, 0.0, 0.0, 0.0));
      && c.time == prev.time + 1
      && c.open == prev.close
      && c.close == prev.close - 1.0
      && c.high == prev.close
      && c.low == prev.close - 1.0
      && c.volume == 500
  {
    CentsShift(prev.close, -1);
    NextBarContinues(prev, Draws(0.0, 0.0, 0.0, 0.0));
    Round2OfCents(prev.close - 1.0);
  }

  /** With a move draw of exactly one half the bar closes where it opened. */
  lemma FlatDrawKeepsPrice(prev: Candle, d: Draws)
    requires IsCents(prev.close) && d.move == 0.5
    ensures GenerateRandomDataPoint(prev, d).close == prev.close
  {
    Round2OfCents(prev.close);
  }
}
