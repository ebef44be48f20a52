/** The three rendering modes the benchmark tells apart, and how the two user
    settings (series type and anti-aliasing) select one. */
module Modes {

  /** The series-type setting that selects the vector line series. */
  const FastLineSeries: string := "FastLineSeries"

  /** The rendering modes; the result store files its records under their keys. */
  datatype Mode = FLS | FLB | FLB_AA
  {
    /** The store key of the mode. */
    function Key(): string
    {
      match this
      case FLS => "FLS"
      case FLB => "FLB"
      case FLB_AA => "FLB_AA"
    }
  }

  /** The modes in the order the comparison texts show them. */
  const AllModes: seq<Mode> := [FLS, FLB, FLB_AA]

  /** One of the three store keys. */
  predicate IsModeKey(k: string)
  {
    k == "FLS" || k == "FLB" || k == "FLB_AA"
  }

  /** The mode the two settings select. */
  function CurrentMode(selectedSeriesType: string, enableAA: bool): (mode: Mode)
    ensures mode == FLS <==> selectedSeriesType == FastLineSeries
    ensures mode == FLB_AA <==> selectedSeriesType != FastLineSeries && enableAA
    ensures mode == FLB <==> selectedSeriesType != FastLineSeries && !enableAA
  {
    if selectedSeriesType == FastLineSeries then FLS else if enableAA then FLB_AA else FLB
  }

  /** `CurrentKey`: "FLS" for the vector series whatever the anti-aliasing
      setting is; otherwise "FLB_AA" with anti-aliasing and "FLB" without. */
  function CurrentKey(selectedSeriesType: string, enableAA: bool): (key: string)
    ensures IsModeKey(key)
    ensures key == "FLS" <==> selectedSeriesType == FastLineSeries
    ensures key == "FLB_AA" <==> selectedSeriesType != FastLineSeries && enableAA
    ensures key == "FLB" <==> selectedSeriesType != FastLineSeries && !enableAA
  {
    CurrentMode(selectedSeriesType, enableAA).Key()
  }

  /** Different modes have different keys, so a key names one mode. */
  lemma KeyInjective(a: Mode, b: Mode)
    ensures a != b ==> a.Key() != b.Key()
  {
    if a != b {
      assert |a.Key()| != |b.Key()| || a.Key()[2] != b.Key()[2];
    }
  }

  /** The series options the run builds: whether to use the bitmap series and
      whether to turn its anti-aliasing on. */
  datatype SeriesOptions = SeriesOptions(isBitmap: bool, enableAntiAliasing: bool)

  function OptionsFor(selectedSeriesType: string, enableAA: bool): (o: SeriesOptions)
    ensures o.enableAntiAliasing ==> o.isBitmap
    ensures o.isBitmap <==> selectedSeriesType != FastLineSeries
  {
    var isBitmap := selectedSeriesType != FastLineSeries;
    SeriesOptions(isBitmap, isBitmap && enableAA)
  }

  /** For one reading of the settings, the key names exactly the series the
      options build: "FLS" for the vector series, "FLB" for the bitmap series
      without anti-aliasing, "FLB_AA" for the bitmap series with it. A run
      reads the settings twice, for the options and later for the key; the
      two readings agree only if the settings do not change in between, which
      is how a run is modelled here. */
  lemma KeyNamesOptions(selectedSeriesType: string, enableAA: bool)
    ensures var mode, o := CurrentMode(selectedSeriesType, enableAA), OptionsFor(selectedSeriesType, enableAA);
            && (mode == FLS <==> o == SeriesOptions(false, false))
            && (mode == FLB <==> o == SeriesOptions(true, false))
            && (mode == FLB_AA <==> o == SeriesOptions(true, true))
  {
  }

  /** Different options never share a key. */
  lemma KeyDeterminesOptions(t1: string, aa1: bool, t2: string, aa2: bool)
    requires CurrentKey(t1, aa1) == CurrentKey(t2, aa2)
    ensures OptionsFor(t1, aa1) == OptionsFor(t2, aa2)
  {
  }
}
