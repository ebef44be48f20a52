/** The non-UI state of `BenchmarkViewModel`
    (SfChartBenchmark/ViewModel/BenchmarkViewModel.cs): the result store, the
    three trend histories, the frame sampler, the cached dataset and the texts
    the window binds to. The chart control itself is reduced to whether one is
    attached. */
module ViewModel {
  import opened Decimal
  import opened Results
  import opened History
  import opened FrameSampler
  import opened Dataset
  import opened Modes
  import opened Summary

  /** What the environment supplies to one benchmark run: the stopwatch and
      memory readings, and the rendering ticks that arrive while the run waits.
      `loadTicks` arrive while it waits after loading, `panTicks` during the
      pan/scroll scenario and `zoomTicks` during the zoom scenario; the sample
      list is emptied before each scenario. */
  datatype RunInputs = RunInputs(
    loadMs: Long,
    memoryMB: real,
    loadTicks: seq<real>,
    panTicks: seq<real>,
    panScrollMs: Long,
    zoomTicks: seq<real>,
    zoomMs: Long)

  /** The five comparison texts. */
  datatype Metric = LoadTime | PanScroll | ZoomTime | Memory | UiResp

  /** The selector each comparison text passes to `FormatThreeCases`. */
  function MetricCell(metric: Metric, x: BenchmarkResult, formatF1: real -> string, formatF2: real -> string): (c: string)
    ensures metric == LoadTime ==> ReadInt(c) == Some((x.initialLoadMs as int, " ms"))
    ensures metric == PanScroll ==> ReadInt(c) == Some((x.panScrollMs as int, " ms"))
    ensures metric == ZoomTime ==> ReadInt(c) == Some((x.zoomMs as int, " ms"))
    ensures metric == Memory ==> |c| >= 3 && c[|c| - 3..] == " MB"
    ensures metric == UiResp ==> |c| >= 9 && c[|c| - 9..] == " ms/frame"
  {
    match metric
    case LoadTime => ReadIntOfIntToString(x.initialLoadMs, " ms"); IntToString(x.initialLoadMs) + " ms"
    case PanScroll => ReadIntOfIntToString(x.panScrollMs, " ms"); IntToString(x.panScrollMs) + " ms"
    case ZoomTime => ReadIntOfIntToString(x.zoomMs, " ms"); IntToString(x.zoomMs) + " ms"
    case Memory => formatF1(x.memoryMB) + " MB"
    case UiResp => formatF2(x.avgUIFrameMs) + " ms/frame"
  }

  /** The selector as a value, built in one place so that every text of a
      metric passes the same function. */
  function Selector(metric: Metric, formatF1: real -> string, formatF2: real -> string): BenchmarkResult -> string
  {
    x => MetricCell(metric, x, formatF1, formatF2)
  }

  function MetricsText(metric: Metric, src: map<Mode, BenchmarkResult>, formatF1: real -> string, formatF2: real -> string): string
  {
    FormatThreeCases(src, Selector(metric, formatF1, formatF2))
  }

  /** Every stored result is filed under one of the three mode keys and carries
      that key as its series type. */
  predicate KeyedStore(results: map<Mode, BenchmarkResult>)
  {
    forall k :: k in results ==> results[k].seriesType == k.Key()
  }

  /** The sampler after a run's waits: ticks after loading, then the emptied
      list collects the pan ticks, then the emptied list collects the zoom ticks. */
  function SamplerAfterRun(st: SamplerState, m: RunInputs): (r: SamplerState)
    ensures |st.frameTimes| <= FrameCapacity ==> |r.frameTimes| <= FrameCapacity
  {
    var afterLoad := Ticks(st, m.loadTicks);
    var afterPan := Ticks(SamplerState(afterLoad.running, []), m.panTicks);
    TicksBounded(SamplerState(afterPan.running, []), m.zoomTicks);
    Ticks(SamplerState(afterPan.running, []), m.zoomTicks)
  }

  /** Ticks delivered to an emptied list: the watch is running afterwards if
      it was or if a tick came, and the list holds the last `FrameCapacity`
      ticks, less the first one when the watch had been stopped. */
  lemma TicksFromEmpty(running: bool, es: seq<real>)
    ensures Ticks(SamplerState(running, []), es).running == (running || es != [])
    ensures Ticks(SamplerState(running, []), es).frameTimes
         == if es == [] then [] else Window(if running then es else es[1..], FrameCapacity)
  {
    var st := SamplerState(running, []);
    TicksBounded(st, es);
    if es != [] {
      TicksEffect(st, es);
      if running {
        assert st.frameTimes + es == es;
      } else {
        assert st.frameTimes + es[1..] == es[1..];
      }
    }
  }

  /** The average frame time a run reports is taken over the zoom scenario's
      samples only: the last `FrameCapacity` zoom ticks, less the first one if
      the watch had never ticked before the zoom scenario began. */
  lemma SamplerAfterRunKeepsZoomSamples(st: SamplerState, m: RunInputs)
    requires |st.frameTimes| <= FrameCapacity
    ensures var startedBeforeZoom := st.running || m.loadTicks != [] || m.panTicks != [];
            && SamplerAfterRun(st, m).running == (startedBeforeZoom || m.zoomTicks != [])
            && SamplerAfterRun(st, m).frameTimes
               == if m.zoomTicks == [] then []
                  else Window(if startedBeforeZoom then m.zoomTicks else m.zoomTicks[1..], FrameCapacity)
  {
    var afterLoad := Ticks(st, m.loadTicks);
    TicksBounded(st, m.loadTicks);
    var afterPan := Ticks(SamplerState(afterLoad.running, []), m.panTicks);
    TicksFromEmpty(afterLoad.running, m.panTicks);
    TicksFromEmpty(afterPan.running, m.zoomTicks);
  }

  /** The entry a run leaves under `mode` after loading: the stored one, or a
      new one carrying the mode's key as its series type, with the load time
      and the memory delta replaced and every other field kept. */
  function LoadedEntry(src: map<Mode, BenchmarkResult>, mode: Mode, m: RunInputs): (e: BenchmarkResult)
    ensures e.initialLoadMs == m.loadMs && e.memoryMB == m.memoryMB
    ensures mode in src ==> e == src[mode].(initialLoadMs := m.loadMs, memoryMB := m.memoryMB)
    ensures mode !in src ==> e == BenchmarkResult(mode.Key(), m.loadMs, 0, 0, m.memoryMB, 0.0)
  {
    var r := if mode in src then src[mode] else NewBenchmarkResult().(seriesType := mode.Key());
    r.(initialLoadMs := m.loadMs, memoryMB := m.memoryMB)
  }

  /** The load and memory texts read only the load and memory fields, so
      recording the interaction timings afterwards leaves them as they were. */
  lemma LoadTextsIgnoreInteraction(src: map<Mode, BenchmarkResult>, key: Mode,
                                   pan: Long, zoom: Long, avg: real, formatF1: real -> string, formatF2: real -> string)
    requires key in src
    ensures var src' := src[key := src[key].(panScrollMs := pan, zoomMs := zoom, avgUIFrameMs := avg)];
            && MetricsText(LoadTime, src', formatF1, formatF2) == MetricsText(LoadTime, src, formatF1, formatF2)
            && MetricsText(Memory, src', formatF1, formatF2) == MetricsText(Memory, src, formatF1, formatF2)
  {
    var src' := src[key := src[key].(panScrollMs := pan, zoomMs := zoom, avgUIFrameMs := avg)];
    FormatThreeCasesSelected(src', src, Selector(LoadTime, formatF1, formatF2));
    FormatThreeCasesSelected(src', src, Selector(Memory, formatF1, formatF2));
  }

  /** The status line the window shows. */
  const ReadyStatus: string := "Ready."
  const StartedStatus: string := "Benchmark Started"
  const CompletedStatus: string := "Benchmark Completed!"
  const ClearedStatus: string := "Cleared. Ready."

  const LoadedPrefix: string := "Chart loaded in "
  const LoadedSuffix: string := " ms. Starting interaction tests..."

  /** The status once the chart has loaded, quoting the load time so that it
      reads back. */
  function LoadedStatus(loadMs: Long): (s: string)
    ensures ReadField(LoadedPrefix, s) == Some((loadMs as int, LoadedSuffix))
  {
    ReadFieldOf(LoadedPrefix, loadMs, LoadedSuffix);
    LoadedPrefix + (IntToString(loadMs) + LoadedSuffix)
  }

  /** The five comparison texts, in the order load, pan/scroll, zoom, memory,
      UI responsiveness. */
  datatype Texts = Texts(load: string, pan: string, zoom: string, memory: string, uiResp: string)

  /** Everything of the view model that a run or a clear reads or changes,
      taken together as one value. */
  datatype Bookkeeping = Bookkeeping(
    chartAttached: bool,
    selectedSeriesType: string,
    enableAA: bool,
    status: string,
    results: map<Mode, BenchmarkResult>,
    loadHistory: seq<real>,
    uiRespHistory: seq<real>,
    memoryHistory: seq<real>,
    texts: Texts,
    sampler: SamplerState)

  /** What the view model keeps true: the histories and the sample list stay
      within their capacities and every result carries its mode's key. */
  predicate Consistent(b: Bookkeeping)
  {
    && |b.loadHistory| <= HistoryCapacity
    && |b.uiRespHistory| <= HistoryCapacity
    && |b.memoryHistory| <= HistoryCapacity
    && |b.sampler.frameTimes| <= FrameCapacity
    && KeyedStore(b.results)
  }

  /** Scenario 1, once the chart has loaded: the status quotes the load time
      and the result stored under the current mode (created when missing)
      gets the load time and the memory delta. */
  function StoreLoad(b: Bookkeeping, m: RunInputs): (r: Bookkeeping)
    ensures var mode := CurrentMode(b.selectedSeriesType, b.enableAA);
            r.results == b.results[mode := LoadedEntry(b.results, mode, m)]
  {
    var mode := CurrentMode(b.selectedSeriesType, b.enableAA);
    b.(status := LoadedStatus(m.loadMs),
       results := b.results[mode := LoadedEntry(b.results, mode, m)])
  }

  /** The load time and the memory delta pushed onto their histories. */
  function PushLoad(b: Bookkeeping, m: RunInputs): (r: Bookkeeping)
    ensures r == b.(loadHistory := r.loadHistory, memoryHistory := r.memoryHistory)
    ensures 0 < |r.loadHistory| <= HistoryCapacity && r.loadHistory[|r.loadHistory| - 1] == m.loadMs as real
    ensures 0 < |r.memoryHistory| <= HistoryCapacity && r.memoryHistory[|r.memoryHistory| - 1] == m.memoryMB
  {
    b.(loadHistory := Window(b.loadHistory + [m.loadMs as real], HistoryCapacity),
       memoryHistory := Window(b.memoryHistory + [m.memoryMB], HistoryCapacity))
  }

  /** Everything scenario 1 records. */
  function LoadStep(b: Bookkeeping, m: RunInputs): (r: Bookkeeping)
    ensures var mode := CurrentMode(b.selectedSeriesType, b.enableAA);
            r.results == b.results[mode := LoadedEntry(b.results, mode, m)]
  {
    PushLoad(StoreLoad(b, m), m)
  }

  /** The load and memory texts rebuilt from the store. */
  function ShowLoad(b: Bookkeeping, formatF1: real -> string, formatF2: real -> string): (r: Bookkeeping)
    ensures r == b.(texts := r.texts)
    ensures r.texts.pan == b.texts.pan && r.texts.zoom == b.texts.zoom && r.texts.uiResp == b.texts.uiResp
  {
    b.(texts := b.texts.(load := MetricsText(LoadTime, b.results, formatF1, formatF2),
                         memory := MetricsText(Memory, b.results, formatF1, formatF2)))
  }

  /** The waits after loading and the two interaction scenarios, during which
      the rendering ticks arrive. */
  function ScenarioStep(b: Bookkeeping, m: RunInputs): (r: Bookkeeping)
    ensures r == b.(sampler := r.sampler)
    ensures |b.sampler.frameTimes| <= FrameCapacity ==> |r.sampler.frameTimes| <= FrameCapacity
  {
    b.(sampler := SamplerAfterRun(b.sampler, m))
  }

  /** Scenarios 2 and 3 are over: the record `entry` that scenario 1 stored
      under `mode` (the run's local `key` and `r`) gets the pan/scroll and zoom
      times and the average of the sampled frame times and is stored again,
      the responsiveness history is pushed and the run is reported complete. */
  function FinishStep(b: Bookkeeping, m: RunInputs, mode: Mode, entry: BenchmarkResult): (r: Bookkeeping)
    ensures r == b.(status := r.status, results := r.results, uiRespHistory := r.uiRespHistory)
    ensures r.status == CompletedStatus
    ensures var avg := AverageFrameTime(b.sampler.frameTimes);
            && r.results == b.results[mode := entry.(panScrollMs := m.panScrollMs, zoomMs := m.zoomMs, avgUIFrameMs := avg)]
            && 0 < |r.uiRespHistory| <= HistoryCapacity && r.uiRespHistory[|r.uiRespHistory| - 1] == avg
  {
    var avg := AverageFrameTime(b.sampler.frameTimes);
    b.(status := CompletedStatus,
       results := b.results[mode := entry.(panScrollMs := m.panScrollMs, zoomMs := m.zoomMs, avgUIFrameMs := avg)],
       uiRespHistory := Window(b.uiRespHistory + [avg], HistoryCapacity))
  }

  /** The pan/scroll, zoom and responsiveness texts rebuilt from the store. */
  function ShowInteraction(b: Bookkeeping, formatF1: real -> string, formatF2: real -> string): (r: Bookkeeping)
    ensures r == b.(texts := r.texts)
    ensures r.texts.load == b.texts.load && r.texts.memory == b.texts.memory
  {
    b.(texts := b.texts.(pan := MetricsText(PanScroll, b.results, formatF1, formatF2),
                         zoom := MetricsText(ZoomTime, b.results, formatF1, formatF2),
                         uiResp := MetricsText(UiResp, b.results, formatF1, formatF2)))
  }

  /** Scenario 1 and the two texts it updates. */
  function LoadPhase(b: Bookkeeping, m: RunInputs, formatF1: real -> string, formatF2: real -> string): (r: Bookkeeping)
    ensures var mode := CurrentMode(b.selectedSeriesType, b.enableAA);
            r.results == b.results[mode := LoadedEntry(b.results, mode, m)]
    ensures r.chartAttached == b.chartAttached && r.sampler == b.sampler
    ensures r.selectedSeriesType == b.selectedSeriesType && r.enableAA == b.enableAA
  {
    ShowLoad(LoadStep(b, m), formatF1, formatF2)
  }

  /** Scenarios 2 and 3 and the three texts they update, for the `mode` and
      the record `entry` scenario 1 stored. */
  function InteractionPhase(b: Bookkeeping, m: RunInputs, mode: Mode, entry: BenchmarkResult,
                            formatF1: real -> string, formatF2: real -> string): (r: Bookkeeping)
    ensures r.status == CompletedStatus
    ensures r.sampler == SamplerAfterRun(b.sampler, m)
    ensures r.results == b.results[mode := entry.(panScrollMs := m.panScrollMs, zoomMs := m.zoomMs,
                                                  avgUIFrameMs := AverageFrameTime(r.sampler.frameTimes))]
  {
    ShowInteraction(FinishStep(ScenarioStep(b, m), m, mode, entry), formatF1, formatF2)
  }

  /** `RunBenchmarkAsync` from start to completion, on the bookkeeping
      state: without a chart nothing happens; otherwise the two phases in
      the order of the source, the second working on the mode and the record
      the first one stored. */
  function RunSpec(b: Bookkeeping, m: RunInputs, formatF1: real -> string, formatF2: real -> string): (r: Bookkeeping)
    ensures !b.chartAttached ==> r == b
    ensures r.chartAttached == b.chartAttached
    ensures r.selectedSeriesType == b.selectedSeriesType && r.enableAA == b.enableAA
  {
    if !b.chartAttached then b
    else
      var mode := CurrentMode(b.selectedSeriesType, b.enableAA);
      InteractionPhase(LoadPhase(b, m, formatF1, formatF2), m, mode, LoadedEntry(b.results, mode, m), formatF1, formatF2)
  }

  /** After a run with a chart, the store holds a result for the current mode
      whose five measurements are the run's; a stored record is reused, so
      its series type stays, and a new one is given the mode's key. The
      entries of the other modes are untouched and no other mode is added. */
  lemma RunUpsertsResult(b: Bookkeeping, m: RunInputs, formatF1: real -> string, formatF2: real -> string)
    requires b.chartAttached
    ensures var mode, r := CurrentMode(b.selectedSeriesType, b.enableAA), RunSpec(b, m, formatF1, formatF2);
            && r.results.Keys == b.results.Keys + {mode}
            && r.results[mode].seriesType == (if mode in b.results then b.results[mode].seriesType else mode.Key())
            && r.results[mode].initialLoadMs == m.loadMs
            && r.results[mode].memoryMB == m.memoryMB
            && r.results[mode].panScrollMs == m.panScrollMs
            && r.results[mode].zoomMs == m.zoomMs
            && r.results[mode].avgUIFrameMs == AverageFrameTime(r.sampler.frameTimes)
            && (forall k :: k in b.results && k != mode ==> r.results[k] == b.results[k])
  {
    RunStoresEntry(b, m, formatF1, formatF2);
    var mode, r := CurrentMode(b.selectedSeriesType, b.enableAA), RunSpec(b, m, formatF1, formatF2);
    var entry := LoadedEntry(b.results, mode, m);
    UpsertTwice(b.results, mode, entry,
                entry.(panScrollMs := m.panScrollMs, zoomMs := m.zoomMs, avgUIFrameMs := AverageFrameTime(r.sampler.frameTimes)));
  }

  /** Storing twice under one key: the second record wins, and the other
      keys keep their records. */
  lemma UpsertTwice(src: map<Mode, BenchmarkResult>, key: Mode, first: BenchmarkResult, second: BenchmarkResult)
    ensures var r := src[key := first][key := second];
            && r.Keys == src.Keys + {key}
            && r[key] == second
            && (forall k :: k in src && k != key ==> r[k] == src[k])
  {
  }

  /** The store after a run: the entry scenario 1 stored under the current
      mode, stored again with the interaction measurements. */
  lemma RunStoresEntry(b: Bookkeeping, m: RunInputs, formatF1: real -> string, formatF2: real -> string)
    requires b.chartAttached
    ensures var mode, r := CurrentMode(b.selectedSeriesType, b.enableAA), RunSpec(b, m, formatF1, formatF2);
            var entry := LoadedEntry(b.results, mode, m);
            r.results == b.results[mode := entry][mode := entry.(panScrollMs := m.panScrollMs, zoomMs := m.zoomMs,
                                                             avgUIFrameMs := AverageFrameTime(r.sampler.frameTimes))]
  {
  }

  /** A run keeps the view model consistent; in particular the result of the
      current mode carries the key `CurrentKey` names. */
  lemma RunKeepsConsistent(b: Bookkeeping, m: RunInputs, formatF1: real -> string, formatF2: real -> string)
    requires Consistent(b)
    ensures Consistent(RunSpec(b, m, formatF1, formatF2))
    ensures b.chartAttached ==>
              RunSpec(b, m, formatF1, formatF2).results[CurrentMode(b.selectedSeriesType, b.enableAA)].seriesType
              == CurrentKey(b.selectedSeriesType, b.enableAA)
  {
    if b.chartAttached {
      var mode := CurrentMode(b.selectedSeriesType, b.enableAA);
      var r := RunSpec(b, m, formatF1, formatF2);
      RunUpsertsResult(b, m, formatF1, formatF2);
      SamplerAfterRunKeepsZoomSamples(b.sampler, m);
      forall k | k in r.results
        ensures r.results[k].seriesType == k.Key()
      {
        if k != mode {
          assert r.results[k] == b.results[k];
        }
      }
    }
  }

  /** A run with a chart pushes the load time, the memory delta and the
      average frame time onto their histories, keeping the last ten values. */
  lemma RunPushesHistories(b: Bookkeeping, m: RunInputs, formatF1: real -> string, formatF2: real -> string)
    requires b.chartAttached
    ensures var r := RunSpec(b, m, formatF1, formatF2);
            && r.loadHistory == Window(b.loadHistory + [m.loadMs as real], HistoryCapacity)
            && r.memoryHistory == Window(b.memoryHistory + [m.memoryMB], HistoryCapacity)
            && r.uiRespHistory == Window(b.uiRespHistory + [AverageFrameTime(r.sampler.frameTimes)], HistoryCapacity)
            && r.status == CompletedStatus
  {
  }

  /** After a run with a chart every one of the five texts describes the
      final store, even the two built before the interaction timings were
      recorded. */
  lemma RunTextsDescribeStore(b: Bookkeeping, m: RunInputs, formatF1: real -> string, formatF2: real -> string)
    requires b.chartAttached
    ensures var r := RunSpec(b, m, formatF1, formatF2);
            r.texts == Texts(MetricsText(LoadTime, r.results, formatF1, formatF2),
                             MetricsText(PanScroll, r.results, formatF1, formatF2),
                             MetricsText(ZoomTime, r.results, formatF1, formatF2),
                             MetricsText(Memory, r.results, formatF1, formatF2),
                             MetricsText(UiResp, r.results, formatF1, formatF2))
  {
    var mode := CurrentMode(b.selectedSeriesType, b.enableAA);
    var loaded := LoadStep(b, m).results;
    var avg := AverageFrameTime(SamplerAfterRun(b.sampler, m).frameTimes);
    LoadTextsIgnoreInteraction(loaded, mode, m.panScrollMs, m.zoomMs, avg, formatF1, formatF2);
  }

  class BenchmarkViewModel {
    var loadHistory: seq<real>
    var uiRespHistory: seq<real>
    var memoryHistory: seq<real>

    var status: string
    var selectedSeriesType: string
    var enableAA: bool

    var loadMetricsText: string
    var panMetricsText: string
    var zoomMetricsText: string
    var memoryMetricsText: string
    var uiRespMetricsText: string

    /** `Chart != null`. */
    var chartAttached: bool

    const seriesCount: nat := 10
    const pointsPerSeries: nat := 100_000
    var dataset: seq<seq<DataModel>>

    var results: map<Mode, BenchmarkResult>

    var frameTimes: seq<real>
    /** `frameWatch.IsRunning`. */
    var frameWatchRunning: bool

    /** The bookkeeping fields as one value. */
    function State(): Bookkeeping
      reads this
    {
      Bookkeeping(chartAttached, selectedSeriesType, enableAA, status, results,
                  loadHistory, uiRespHistory, memoryHistory,
                  Texts(loadMetricsText, panMetricsText, zoomMetricsText, memoryMetricsText, uiRespMetricsText),
                  SamplerState(frameWatchRunning, frameTimes))
    }

    ghost predicate Valid()
      reads this
    {
      && |loadHistory| <= HistoryCapacity
      && |uiRespHistory| <= HistoryCapacity
      && |memoryHistory| <= HistoryCapacity
      && |frameTimes| <= FrameCapacity
      && KeyedStore(results)
      && |dataset| == seriesCount
      && (forall s :: 0 <= s < |dataset| ==> |dataset[s]| == pointsPerSeries)
    }

    /** The initial state; the dataset is drawn from two fresh random streams. */
    constructor (offsets: Stream, walk: Stream)
      ensures Valid()
      ensures loadHistory == [] && uiRespHistory == [] && memoryHistory == []
      ensures status == ReadyStatus && selectedSeriesType == FastLineSeries && !enableAA
      ensures loadMetricsText == Placeholder && panMetricsText == Placeholder && zoomMetricsText == Placeholder
      ensures memoryMetricsText == Placeholder && uiRespMetricsText == Placeholder
      ensures !chartAttached && results == map[] && frameTimes == [] && !frameWatchRunning
      ensures forall s :: 0 <= s < seriesCount ==> dataset[s] == Series(pointsPerSeries, offsets, walk, s)
    {
      loadHistory, uiRespHistory, memoryHistory := [], [], [];
      status := ReadyStatus;
      selectedSeriesType := FastLineSeries;
      enableAA := false;
      loadMetricsText, panMetricsText, zoomMetricsText := Placeholder, Placeholder, Placeholder;
      memoryMetricsText, uiRespMetricsText := Placeholder, Placeholder;
      chartAttached := false;
      results := map[];
      frameTimes := [];
      frameWatchRunning := false;
      var generated := GenerateDataset(seriesCount, pointsPerSeries, offsets, walk);
      dataset := generated;
    }

    /** `OnRenderingTick`; `elapsedMs` is the stopwatch reading at this tick. */
    method OnRenderingTick(elapsedMs: real)
      requires Valid()
      modifies this`frameWatchRunning, this`frameTimes
      ensures Valid()
      ensures SamplerState(frameWatchRunning, frameTimes)
           == Tick(SamplerState(old(frameWatchRunning), old(frameTimes)), elapsedMs)
      ensures frameWatchRunning
      ensures !old(frameWatchRunning) ==> frameTimes == old(frameTimes)
      ensures old(frameWatchRunning) ==> frameTimes == Window(old(frameTimes) + [elapsedMs], FrameCapacity)
    {
      if !frameWatchRunning {
        frameWatchRunning := true;  // Restart
        return;
      }
      frameWatchRunning := false;  // Stop
      frameTimes := frameTimes + [elapsedMs];
      if |frameTimes| > FrameCapacity {
        frameTimes := frameTimes[1..];
      }
      frameWatchRunning := true;  // Restart
    }

    /** `RunBenchmarkAsync`, from start to completion: the bookkeeping state
        moves as `RunSpec` says, and the dataset stays. */
    method RunBenchmark(m: RunInputs, formatF1: real -> string, formatF2: real -> string)
      requires Valid()
      modifies this`status, this`results, this`loadHistory, this`uiRespHistory, this`memoryHistory
      modifies this`loadMetricsText, this`panMetricsText, this`zoomMetricsText
      modifies this`memoryMetricsText, this`uiRespMetricsText, this`frameWatchRunning, this`frameTimes
      ensures Valid()
      ensures State() == RunSpec(old(State()), m, formatF1, formatF2)
    {
      if !chartAttached {
        return;
      }
      // Zoom reset, garbage collection, series construction from
      // OptionsFor(selectedSeriesType, enableAA) and the render waits act on
      // the chart and the runtime only.
      RunScenarios(m, formatF1, formatF2);
      RunKeepsConsistent(old(State()), m, formatF1, formatF2);
      assert Consistent(State());
    }

    /** The body of `RunBenchmarkAsync` past the chart check: scenario 1, then
        the interaction scenarios on the mode and the record it stored. */
    method RunScenarios(m: RunInputs, formatF1: real -> string, formatF2: real -> string)
      requires chartAttached
      modifies this`status, this`results, this`loadHistory, this`uiRespHistory, this`memoryHistory
      modifies this`loadMetricsText, this`panMetricsText, this`zoomMetricsText
      modifies this`memoryMetricsText, this`uiRespMetricsText, this`frameWatchRunning, this`frameTimes
      ensures State() == RunSpec(old(State()), m, formatF1, formatF2)
    {
      var mode, r := LoadScenario(m, formatF1, formatF2);
      InteractionScenarios(m, mode, r, formatF1, formatF2);
    }

    /** Scenario 1 and its texts: see `LoadPhase`. The mode and the record
        stored under it are handed on to the interaction scenarios. */
    method LoadScenario(m: RunInputs, formatF1: real -> string, formatF2: real -> string)
      returns (mode: Mode, r: BenchmarkResult)
      modifies this`status, this`results, this`loadHistory, this`memoryHistory
      modifies this`loadMetricsText, this`memoryMetricsText
      ensures State() == LoadPhase(old(State()), m, formatF1, formatF2)
      ensures mode == CurrentMode(old(selectedSeriesType), old(enableAA)) && r == LoadedEntry(old(results), mode, m)
    {
      mode, r := RecordLoad(m);
      ShowLoadTexts(formatF1, formatF2);
    }

    /** Scenarios 2 and 3 and their texts: see `InteractionPhase`. */
    method InteractionScenarios(m: RunInputs, mode: Mode, r: BenchmarkResult, formatF1: real -> string, formatF2: real -> string)
      modifies this`status, this`results, this`uiRespHistory
      modifies this`panMetricsText, this`zoomMetricsText, this`uiRespMetricsText, this`frameWatchRunning, this`frameTimes
      ensures State() == InteractionPhase(old(State()), m, mode, r, formatF1, formatF2)
    {
      AwaitScenarios(m);
      RecordInteraction(m, mode, r);
      ShowInteractionTexts(formatF1, formatF2);
    }

    /** Scenario 1 in place: see `LoadStep`. */
    method RecordLoad(m: RunInputs) returns (mode: Mode, r: BenchmarkResult)
      modifies this`status, this`results, this`loadHistory, this`memoryHistory
      ensures State() == LoadStep(old(State()), m)
      ensures mode == CurrentMode(old(selectedSeriesType), old(enableAA)) && r == LoadedEntry(old(results), mode, m)
    {
      status := StartedStatus;
      mode, r := StoreLoadResult(m);
      PushLoadHistories(m);
    }

    /** See `StoreLoad`; `mode` and `r` are the source's local `key` and `r`. */
    method StoreLoadResult(m: RunInputs) returns (mode: Mode, r: BenchmarkResult)
      modifies this`status, this`results
      ensures State() == StoreLoad(old(State()), m)
      ensures mode == CurrentMode(old(selectedSeriesType), old(enableAA)) && r == LoadedEntry(old(results), mode, m)
    {
      mode := CurrentMode(selectedSeriesType, enableAA);
      status := LoadedStatus(m.loadMs);
      r := LoadedEntry(results, mode, m);
      results := results[mode := r];
    }

    /** See `PushLoad`. */
    method PushLoadHistories(m: RunInputs)
      modifies this`loadHistory, this`memoryHistory
      ensures State() == PushLoad(old(State()), m)
    {
      loadHistory := PushHistory(loadHistory, m.loadMs as real);
      memoryHistory := PushHistory(memoryHistory, m.memoryMB);
    }

    /** `LoadMetricsText` and `MemoryMetricsText` after scenario 1. */
    method ShowLoadTexts(formatF1: real -> string, formatF2: real -> string)
      modifies this`loadMetricsText, this`memoryMetricsText
      ensures State() == ShowLoad(old(State()), formatF1, formatF2)
    {
      loadMetricsText, memoryMetricsText :=
        MetricsText(LoadTime, results, formatF1, formatF2), MetricsText(Memory, results, formatF1, formatF2);
    }

    /** The render waits: the ticks they let through reach `OnRenderingTick`,
        and `frameTimes.Clear()` runs before each scenario. */
    method AwaitScenarios(m: RunInputs)
      modifies this`frameWatchRunning, this`frameTimes
      ensures State() == ScenarioStep(old(State()), m)
    {
      var sampler := SamplerAfterRun(SamplerState(frameWatchRunning, frameTimes), m);
      frameWatchRunning, frameTimes := sampler.running, sampler.frameTimes;
    }

    /** Scenarios 2 and 3 recorded in place: see `FinishStep`. `mode` and `r`
        are the key and the record scenario 1 stored. */
    method RecordInteraction(m: RunInputs, mode: Mode, r: BenchmarkResult)
      modifies this`status, this`results, this`uiRespHistory
      ensures State() == FinishStep(old(State()), m, mode, r)
    {
      var avgUiMs := AverageFrameTime(frameTimes);
      var r' := r.(panScrollMs := m.panScrollMs, zoomMs := m.zoomMs, avgUIFrameMs := avgUiMs);
      results := results[mode := r'];
      uiRespHistory := PushHistory(uiRespHistory, avgUiMs);
      status := CompletedStatus;
    }

    /** `PanMetricsText`, `ZoomMetricsText` and `UiRespMetricsText` at the end
        of a run. */
    method ShowInteractionTexts(formatF1: real -> string, formatF2: real -> string)
      modifies this`panMetricsText, this`zoomMetricsText, this`uiRespMetricsText
      ensures State() == ShowInteraction(old(State()), formatF1, formatF2)
    {
      var pan := MetricsText(PanScroll, results, formatF1, formatF2);
      var zoom := MetricsText(ZoomTime, results, formatF1, formatF2);
      var uiResp := MetricsText(UiResp, results, formatF1, formatF2);
      panMetricsText, zoomMetricsText, uiRespMetricsText := pan, zoom, uiResp;
    }

    /** `Clear`: empties the store and the histories and resets every text and
        the status. The settings, the sample list and the stopwatch are left
        as they are. */
    method Clear()
      requires Valid()
      modifies this`results, this`loadHistory, this`uiRespHistory, this`memoryHistory
      modifies this`loadMetricsText, this`panMetricsText, this`zoomMetricsText
      modifies this`memoryMetricsText, this`uiRespMetricsText, this`status
      ensures Valid()
      ensures results == map[]
      ensures loadHistory == [] && uiRespHistory == [] && memoryHistory == []
      ensures loadMetricsText == Placeholder && panMetricsText == Placeholder && zoomMetricsText == Placeholder
      ensures memoryMetricsText == Placeholder && uiRespMetricsText == Placeholder
      ensures status == ClearedStatus
    {
      ClearStore();
      ResetTexts();
      status := ClearedStatus;
    }

    /** The store and the three histories emptied. */
    method ClearStore()
      modifies this`results, this`loadHistory, this`uiRespHistory, this`memoryHistory
      ensures results == map[]
      ensures loadHistory == [] && uiRespHistory == [] && memoryHistory == []
    {
      results := map[];
      loadHistory, uiRespHistory, memoryHistory := [], [], [];
    }

    /** Every comparison text back to the placeholder. */
    method ResetTexts()
      modifies this`loadMetricsText, this`panMetricsText, this`zoomMetricsText
      modifies this`memoryMetricsText, this`uiRespMetricsText
      ensures loadMetricsText == Placeholder && panMetricsText == Placeholder && zoomMetricsText == Placeholder
      ensures memoryMetricsText == Placeholder && uiRespMetricsText == Placeholder
    {
      loadMetricsText, panMetricsText, zoomMetricsText := Placeholder, Placeholder, Placeholder;
      memoryMetricsText, uiRespMetricsText := Placeholder, Placeholder;
    }
  }
}
