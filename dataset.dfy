/** The synthetic data the benchmark draws: `GenerateDataset` and the series
    palette `ColorFromIndex` of SfChartBenchmark/ViewModel/BenchmarkViewModel.cs. */
module Dataset {

  /** A value of `Random.NextDouble()`: at least 0 and below 1. */
  type UnitReal = r: real | 0.0 <= r < 1.0

  /** A random stream, given by the value of each successive draw (draw 0 first).
      Both streams are fresh when the dataset is generated, at construction. */
  type Stream = nat -> UnitReal

  /** One chart point: `new DataModel(i, y)`. */
  datatype DataModel = DataModel(xValue: int, yValue: real)

  /** One step of the walk: a coin draw above 0.5 moves the value up by the
      magnitude drawn next, any other coin moves it down by that magnitude. */
  function Step(y: real, coin: real, magnitude: real): (next: real)
    ensures coin > 0.5 ==> next == y + magnitude
    ensures coin <= 0.5 ==> next == y - magnitude
  {
    if coin > 0.5 then y + magnitude else y - magnitude
  }

  /** Each point consumes two draws of the walk stream (coin, then magnitude),
      series after series: the coin drawn after point `i` of series `s`. */
  function CoinDraw(pointsPerSeries: nat, s: nat, i: nat): nat
  {
    2 * (s * pointsPerSeries + i)
  }

  /** The y value of point `i` of series `s`: the series' start offset (draw `s`
      of the offset stream, scaled by 10), moved by one walk step per point. */
  function WalkValue(pointsPerSeries: nat, offsets: Stream, walk: Stream, s: nat, i: nat): (y: real)
    ensures i == 0 ==> 0.0 <= y < 10.0
    decreases i
  {
    if i == 0 then offsets(s) * 10.0
    else
      var d := CoinDraw(pointsPerSeries, s, i - 1);
      Step(WalkValue(pointsPerSeries, offsets, walk, s, i - 1), walk(d), walk(d + 1))
  }

  /** Series `s` as generated: point `i` has x value `i` and the walk's y value. */
  function Series(pointsPerSeries: nat, offsets: Stream, walk: Stream, s: nat): (col: seq<DataModel>)
    ensures |col| == pointsPerSeries
    ensures forall i :: 0 <= i < pointsPerSeries ==>
              col[i].xValue == i && col[i].yValue == WalkValue(pointsPerSeries, offsets, walk, s, i)
  {
    seq(pointsPerSeries, i requires 0 <= i < pointsPerSeries => DataModel(i, WalkValue(pointsPerSeries, offsets, walk, s, i)))
  }

  /** `GenerateDataset`: `seriesCount` series of `pointsPerSeries` points each,
      series `s` being `Series(.., s)`. */
  method GenerateDataset(seriesCount: nat, pointsPerSeries: nat, offsets: Stream, walk: Stream)
    returns (dataset: seq<seq<DataModel>>)
    ensures |dataset| == seriesCount
    ensures forall s :: 0 <= s < seriesCount ==> dataset[s] == Series(pointsPerSeries, offsets, walk, s)
  {
    dataset := [];
    var draw := 0;  // position in the walk stream
    for s := 0 to seriesCount
      invariant |dataset| == s
      invariant draw == CoinDraw(pointsPerSeries, s, 0)
      invariant forall t :: 0 <= t < s ==> dataset[t] == Series(pointsPerSeries, offsets, walk, t)
    {
      var col;
      col, draw := GenerateSeries(pointsPerSeries, offsets, walk, s, draw);
      dataset := dataset + [col];
    }
  }

  /** The inner loop of `GenerateDataset`: series `s`, drawn from the walk
      stream starting at position `draw`, which is left just past the series. */
  method GenerateSeries(pointsPerSeries: nat, offsets: Stream, walk: Stream, s: nat, draw: nat)
    returns (col: seq<DataModel>, next: nat)
    requires draw == CoinDraw(pointsPerSeries, s, 0)
    ensures col == Series(pointsPerSeries, offsets, walk, s)
    ensures next == CoinDraw(pointsPerSeries, s + 1, 0)
  {
    col := [];
    next := draw;
    var y := offsets(s) * 10.0;
    ghost var spec := Series(pointsPerSeries, offsets, walk, s);
    for i := 0 to pointsPerSeries
      invariant col == spec[..i]
      invariant next == CoinDraw(pointsPerSeries, s, i)
      invariant y == WalkValue(pointsPerSeries, offsets, walk, s, i)
    {
      col := col + [DataModel(i, y)];
      var coin := walk(next);
      next := next + 1;
      if coin > 0.5 {
        y := y + walk(next);
      } else {
        y := y - walk(next);
      }
      next := next + 1;
    }
    assert col == spec;
    NextSeriesDraw(pointsPerSeries, s);
  }

  /** The draw after the last point of series `s` is the first of series `s + 1`. */
  lemma NextSeriesDraw(pointsPerSeries: nat, s: nat)
    ensures CoinDraw(pointsPerSeries, s, pointsPerSeries) == CoinDraw(pointsPerSeries, s + 1, 0)
  {
    assert (s + 1) * pointsPerSeries == s * pointsPerSeries + pointsPerSeries;
  }

  /** Each step moves by less than 1, so point `i` lies within `i` of the start. */
  lemma {:induction false} WalkDrift(pointsPerSeries: nat, offsets: Stream, walk: Stream, s: nat, i: nat)
    ensures var d := WalkValue(pointsPerSeries, offsets, walk, s, i) - WalkValue(pointsPerSeries, offsets, walk, s, 0);
            -(i as real) <= d <= i as real
    decreases i
  {
    if i > 0 {
      WalkDrift(pointsPerSeries, offsets, walk, s, i - 1);
    }
  }

  /** The ten stroke colours, in palette order. */
  datatype Color =
    | DeepSkyBlue | Orange | LimeGreen | Violet | Gold
    | Tomato | MediumTurquoise | SlateBlue | HotPink | CadetBlue

  const Palette: seq<Color> :=
    [DeepSkyBlue, Orange, LimeGreen, Violet, Gold, Tomato, MediumTurquoise, SlateBlue, HotPink, CadetBlue]

  /** The stroke colour of series `i`: the palette, cycled. */
  function ColorFromIndex(i: nat): (c: Color)
    ensures c in Palette
  {
    Palette[i % |Palette|]
  }

  /** Indices congruent modulo the palette size get the same colour. */
  lemma ColorRepeats(i: nat, j: nat)
    requires i % 10 == j % 10
    ensures ColorFromIndex(i) == ColorFromIndex(j)
  {
  }

  /** Indices one palette length apart get the same colour. */
  lemma {:induction false} ColorPeriodic(i: nat, k: nat)
    ensures ColorFromIndex(i + 10 * k) == ColorFromIndex(i)
    decreases k
  {
    if k > 0 {
      var j := i + 10 * (k - 1);
      ColorPeriodic(i, k - 1);
      assert i + 10 * k == j + 10;
      assert (j + 10) % 10 == j % 10;
    }
  }

  /** The first ten series all get different colours. */
  lemma FirstTenColorsDistinct(i: nat, j: nat)
    requires i < j < |Palette|
    ensures ColorFromIndex(i) != ColorFromIndex(j)
  {
  }
}
