/** The live window of the chart: the initial fill of 100 bars, the volume
    histogram derived from it, and the once-a-second advance of `updateData`,
    which drops the oldest bar and appends the next generated one. */
module Window {
  import opened Candles
  import opened SeriesGenerator

  /** Number of bars the component generates at start-up. */
  const InitialSize: int := 100

  /** Why an advance can fail: on an empty window the source reads the last
      bar as `undefined` and `generateRandomDataPoint` throws on it. */
  datatype UpdateError = NoLastBar

  datatype Result<T> = Ok(value: T) | Err(error: UpdateError)

  /** What one advance produces: the new window, and the bar and volume
      point it hands to the two series as an incremental update. */
  datatype Tick = Tick(window: seq<Candle>, bar: Candle, volume: VolumePoint)

  /** The histogram data for a window: one point per bar, in the same order. */
  function VolumeSeries(w: seq<Candle>): (v: seq<VolumePoint>)
    ensures |v| == |w|
    ensures forall i :: 0 <= i < |w| ==> v[i].time == w[i].time && v[i].value == w[i].volume
    ensures forall i :: 0 <= i < |w| ==> (v[i].color == Up <==> w[i].close > w[i].open)
  {
    seq(|w|, i requires 0 <= i < |w| => ToVolumePoint(w[i]))
  }

  /** The histogram of a valid window has one point per second and every
      value in [500, 1500). */
  lemma VolumeSeriesValid(w: seq<Candle>)
    requires ValidSeries(w)
    ensures var v := VolumeSeries(w);
      && (forall i :: 0 <= i < |v| ==> 500 <= v[i].value < 1500)
      && (forall i :: 0 < i < |v| ==> v[i].time == v[i - 1].time + 1)
  {
  }

  /** One advance of a non-empty window: the oldest bar is evicted and the
      bar generated from the newest is appended. */
  function Advance(w: seq<Candle>, d: Draws): (r: seq<Candle>)
    requires |w| > 0
    ensures |r| == |w|
    ensures r[..|w| - 1] == w[1..]
    ensures r[|w| - 1] == GenerateRandomDataPoint(w[|w| - 1], d)
  {
    w[1..] + [GenerateRandomDataPoint(w[|w| - 1], d)]
  }

  /** The state updater of `updateData`: copy the window, `shift` the copy,
      generate from the last bar of the old window, `push` onto the copy. */
  method UpdateData(prevData: seq<Candle>, d: Draws) returns (r: Result<Tick>)
    ensures r.Err? <==> prevData == []
    ensures r.Ok? ==> r.value.window == Advance(prevData, d)
    ensures r.Ok? ==> r.value.bar == GenerateRandomDataPoint(prevData[|prevData| - 1], d)
    ensures r.Ok? ==> r.value.volume == ToVolumePoint(r.value.bar)
  {
    var newData := prevData;
    if |newData| > 0 {
      newData := newData[1..];
    }
    if |prevData| == 0 {
      return Err(NoLastBar);
    }
    var lastDataPoint := prevData[|prevData| - 1];
    var newDataPoint := GenerateRandomDataPoint(lastDataPoint, d);
    newData := newData + [newDataPoint];
    return Ok(Tick(newData, newDataPoint, ToVolumePoint(newDataPoint)));
  }

  /** An advance keeps a valid window valid, and its oldest and newest bars
      are both one second later than before. */
  lemma AdvanceValid(w: seq<Candle>, d: Draws)
    requires |w| > 0 && ValidSeries(w) && ValidDraws(d)
    ensures var r := Advance(w, d);
      && ValidSeries(r)
      && r[0].time == w[0].time + 1
      && r[|r| - 1].time == w[|w| - 1].time + 1
  {
    NextBarExtends(w, d);
    var e := w + [GenerateRandomDataPoint(w[|w| - 1], d)];
    assert Advance(w, d) == e[1..];
  }

  /** The histogram kept up to date by the incremental `update` calls is the
      histogram of the new window: the old points without the first, plus
      the point of the new bar. */
  lemma AdvanceVolumeSeries(w: seq<Candle>, d: Draws)
    requires |w| > 0
    ensures VolumeSeries(Advance(w, d))
         == VolumeSeries(w)[1..] + [ToVolumePoint(GenerateRandomDataPoint(w[|w| - 1], d))]
  {
    var r := Advance(w, d);
    var lhs := VolumeSeries(r);
    var rhs := VolumeSeries(w)[1..] + [ToVolumePoint(r[|w| - 1])];
    assert |lhs| == |rhs|;
    forall i | 0 <= i < |w| ensures lhs[i] == rhs[i] {
      if i < |w| - 1 {
        assert r[i] == w[i + 1];
        assert lhs[i] == ToVolumePoint(w[i + 1]) == VolumeSeries(w)[i + 1];
      }
    }
    assert lhs == rhs;
  }

  /** The window after one advance per set of draws, in order. */
  function Run(w: seq<Candle>, ticks: seq<Draws>): (r: seq<Candle>)
    requires |w| > 0
    ensures |r| == |w|
    decreases |ticks|
  {
    if ticks == [] then w else Run(Advance(w, ticks[0]), ticks[1..])
  }

  /** However many advances run, the window keeps its length and stays
      valid, and its oldest bar moves forward one second per advance. */
  lemma {:induction false} RunValid(w: seq<Candle>, ticks: seq<Draws>)
    requires |w| > 0 && ValidSeries(w) && AllValid(ticks)
    ensures var r := Run(w, ticks);
      && |r| == |w|
      && ValidSeries(r)
      && r[0].time == w[0].time + |ticks|
    decreases |ticks|
  {
    if ticks != [] {
      AdvanceValid(w, ticks[0]);
      assert AllValid(ticks[1..]) by {
        forall i | 0 <= i < |ticks[1..]| ensures ValidDraws(ticks[1..][i]) { assert ticks[1..][i] == ticks[i + 1]; }
      }
      RunValid(Advance(w, ticks[0]), ticks[1..]);
    }
  }

  /** Throughout a session (100 generated bars, then one advance per tick)
      the window holds exactly 100 bars, is a valid series, and after `k`
      ticks starts `k` seconds after the first generated bar. */
  lemma SessionWindow(nowMs: int, initial: seq<Draws>, ticks: seq<Draws>)
    requires InitialSize <= |initial|
    requires AllValid(initial[..InitialSize]) && AllValid(ticks)
    ensures var w0 := SampleData(nowMs, InitialSize, initial);
      var r := Run(w0, ticks);
      && |r| == InitialSize
      && ValidSeries(r)
      && r[0].time == nowMs / 1000 - InitialSize + |ticks|
  {
    SampleDataValid(nowMs, InitialSize, initial);
    RunValid(SampleData(nowMs, InitialSize, initial), ticks);
  }
}
