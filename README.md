# SfChartBenchmark view-model bookkeeping in Dafny

SfChartBenchmark is a WPF program that loads ten line series of 100 000 points into a
Syncfusion chart in one of three rendering modes, then times three scenarios: the
initial load, a pan/scroll sweep and a series of zoom cycles. This project models the
bookkeeping of its view model, `BenchmarkViewModel`, and the `BenchmarkResult` record it
stores, and proves properties of that model. The chart control itself is out of scope.

The model covers:

- the three bounded trend histories and their `PushHistory` FIFO (at most ten values);
- the frame-time sampler driven by `OnRenderingTick`: a stopwatch that is running or
  stopped, and a list of at most 1000 samples;
- the mode selection (`CurrentKey`, and the `isBitmap` / anti-aliasing decision);
- the result store, upserted by a benchmark run and emptied by `Clear`, together with
  the five comparison texts `FormatThreeCases` builds from it;
- the guard that makes a run without a chart do nothing;
- the shape of the generated dataset and the palette `ColorFromIndex` cycles through;
- the `BenchmarkResult` record, its defaults and its one-line `ToString`.

Modules, one per concern:

- `Decimal` renders integers the way string interpolation renders a `long`. It also has
  a reader that recovers the integer from its numeral.
- `Results` holds `BenchmarkResult`, `ToString`, and a parser for the three timings that
  serves as the inverse of `ToString`.
- `History` holds `PushHistory` and the sliding window `Window` that specifies it.
- `FrameSampler` holds the tick state machine `Tick`, its fold `Ticks` and the average
  frame time.
- `Dataset` holds `GenerateDataset` (nested loops) against the specification `Series`,
  plus the palette.
- `Modes` holds the three rendering modes, their store keys and the series options each
  mode builds.
- `Summary` holds `FormatThreeCases` and a splitter that recovers its three slots.
- `ViewModel` holds the class `BenchmarkViewModel`, whose fields are those of the source.
  - `RunBenchmark` and the methods it calls (`RunScenarios`, `LoadScenario`,
    `InteractionScenarios`, `RecordLoad`, `StoreLoadResult`, `PushLoadHistories`,
    `ShowLoadTexts`, `AwaitScenarios`, `RecordInteraction`, `ShowInteractionTexts`) are
    each proved against a pure function on `Bookkeeping`, the value of all the
    bookkeeping fields together (`State()`).
  - `RunSpec` composes those functions in the source's order. The lemmas about the run
    are stated on `RunSpec`.
  - `Clear`, `ClearStore`, `ResetTexts` and the constructor state the new value of each
    field they write directly.
  - `OnRenderingTick` is proved against the tick function `FrameSampler.Tick` on the
    sampler's state alone, the stopwatch flag and the sample list.

Inputs from the environment are parameters:

- The stopwatch and memory readings and the rendering ticks that arrive while a run
  waits come in as `RunInputs`.
- The stopwatch reading at a tick is the `elapsedMs` argument of `OnRenderingTick`.
- The two random number generators are `Stream` values: one draw per series for the
  seeded generator, and two draws per point for the other.
- The `F1` and `F2` number formats are the function parameters `formatF1` and `formatF2`.

## Model

| member | source | states |
|---|---|---|
| Decimal.NatToStringDigits | SfChartBenchmark/Model/BenchmarkResult.cs:12 | the numeral of a natural number is a non-empty run of digits without a leading zero |
| Decimal.IntToString | SfChartBenchmark/Model/BenchmarkResult.cs:12 | the rendering of a `long` is its digits, with a leading '-' only when it is negative |
| Decimal.ParseNatToString | SfChartBenchmark/Model/BenchmarkResult.cs:12 | the value of the digits rendered for `n` is `n` |
| Decimal.ReadIntOfIntToString | SfChartBenchmark/Model/BenchmarkResult.cs:12 | reading an integer from its rendering followed by a non-digit gives back the integer and leaves the rest untouched |
| Results.NewBenchmarkResult | SfChartBenchmark/Model/BenchmarkResult.cs:5-10 | a new record has series type "" and every numeric field zero |
| Results.BenchmarkResult.ToString | SfChartBenchmark/Model/BenchmarkResult.cs:11-12 | the summary line begins with the series type followed by ": Load=" and ends with " ms" |
| Results.ParseTimingsOfToString | SfChartBenchmark/Model/BenchmarkResult.cs:11-12 | reading the line back in the order Load, Pan/Scroll, Zoom, each timing a number followed by " ms" and the next label, gives exactly the three integer timings, with " ms, Mem=" after the zoom time |
| Results.NewBenchmarkResultToString | SfChartBenchmark/Model/BenchmarkResult.cs:5-12 | a fresh record prints starting with ": Load=", and its three timings read back as zero |
| History.Window | SfChartBenchmark/ViewModel/BenchmarkViewModel.cs:341-345 | the window never holds more than `n` values |
| History.WindowIsSuffix | SfChartBenchmark/ViewModel/BenchmarkViewModel.cs:341-345 | the window is a suffix of the input, and is all of it unless it is full |
| History.PushHistory | SfChartBenchmark/ViewModel/BenchmarkViewModel.cs:341-345 | the loop of front removals leaves the last ten values of the collection with the new value appended |
| History.WindowOfWindow | SfChartBenchmark/ViewModel/BenchmarkViewModel.cs:341-345 | trimming to the window before appending more and trimming again gives the same as trimming once |
| History.PushAllIsWindow | SfChartBenchmark/ViewModel/BenchmarkViewModel.cs:341-345 | after any sequence of pushes a history holds the last min(n, 10) values pushed, in push order |
| FrameSampler.Tick | SfChartBenchmark/ViewModel/BenchmarkViewModel.cs:77-89 | after a tick the watch runs; a tick of a stopped watch records nothing; a tick of a running watch appends the reading and drops the oldest sample past 1000; the list never exceeds 1000 |
| FrameSampler.TicksWhileRunning | SfChartBenchmark/ViewModel/BenchmarkViewModel.cs:77-89 | while the watch runs, every tick is recorded and the list is the last 1000 samples, oldest evicted first |
| FrameSampler.TicksEffect | SfChartBenchmark/ViewModel/BenchmarkViewModel.cs:77-89 | after at least one tick the watch runs, and the list is the window of the old samples and the new readings, less the first reading when the watch had been stopped |
| FrameSampler.TicksBounded | SfChartBenchmark/ViewModel/BenchmarkViewModel.cs:87 | no sequence of ticks takes the list past 1000 samples, and the watch runs after it exactly when it ran before or a tick came |
| FrameSampler.AverageFrameTime | SfChartBenchmark/ViewModel/BenchmarkViewModel.cs:250 | the average of no samples is 0 |
| FrameSampler.AverageWithinBounds | SfChartBenchmark/ViewModel/BenchmarkViewModel.cs:250 | the average of a non-empty sample list lies between any lower and upper bound of its samples |
| Dataset.Step | SfChartBenchmark/ViewModel/BenchmarkViewModel.cs:104-111 | a coin above 0.5 adds the next draw to y, any other coin subtracts it |
| Dataset.Series | SfChartBenchmark/ViewModel/BenchmarkViewModel.cs:97-112 | a series has `pointsPerSeries` points, point `i` having x value `i` and the walk's y value |
| Dataset.GenerateDataset | SfChartBenchmark/ViewModel/BenchmarkViewModel.cs:91-116 | the nested loops leave exactly `seriesCount` series, series `s` being the specified walk series `s` |
| Dataset.GenerateSeries | SfChartBenchmark/ViewModel/BenchmarkViewModel.cs:97-112 | the inner loop builds exactly series `s` and leaves the walk stream two draws per point further on |
| Dataset.WalkValue | SfChartBenchmark/ViewModel/BenchmarkViewModel.cs:98-111 | every series starts in the band [0, 10), the start offset scaled by 10 |
| Dataset.WalkDrift | SfChartBenchmark/ViewModel/BenchmarkViewModel.cs:100-111 | point `i` lies within `i` of the series' start, each step being below 1 |
| Dataset.ColorFromIndex | SfChartBenchmark/ViewModel/BenchmarkViewModel.cs:151-159 | the colour of any index is one of the ten palette colours |
| Dataset.ColorRepeats | SfChartBenchmark/ViewModel/BenchmarkViewModel.cs:158 | indices congruent modulo 10 get the same colour |
| Dataset.ColorPeriodic | SfChartBenchmark/ViewModel/BenchmarkViewModel.cs:158 | indices any number of palette lengths apart get the same colour |
| Dataset.FirstTenColorsDistinct | SfChartBenchmark/ViewModel/BenchmarkViewModel.cs:153-158 | the first ten series get ten different colours |
| Modes.CurrentMode | SfChartBenchmark/ViewModel/BenchmarkViewModel.cs:161-164 | the vector mode exactly when the series type is "FastLineSeries"; otherwise the anti-aliased bitmap mode exactly when AA is on and the plain bitmap mode exactly when it is off |
| Modes.CurrentKey | SfChartBenchmark/ViewModel/BenchmarkViewModel.cs:161-164 | the key is one of "FLS", "FLB", "FLB_AA": "FLS" exactly when the series type is "FastLineSeries" whatever the AA setting, else "FLB_AA" exactly when AA is on and "FLB" exactly when it is off |
| Modes.KeyInjective | SfChartBenchmark/ViewModel/BenchmarkViewModel.cs:161-164 | different modes have different keys |
| Modes.OptionsFor | SfChartBenchmark/ViewModel/BenchmarkViewModel.cs:187-188 | anti-aliasing is requested only for the bitmap series, and the bitmap series exactly when the type is not "FastLineSeries" |
| Modes.KeyNamesOptions | SfChartBenchmark/ViewModel/BenchmarkViewModel.cs:187-188 | each key names exactly one combination of the options: FLS vector, FLB bitmap without AA, FLB_AA bitmap with AA |
| Modes.KeyDeterminesOptions | SfChartBenchmark/ViewModel/BenchmarkViewModel.cs:187-188 | two settings with the same key build the same series options |
| Summary.Cell | SfChartBenchmark/ViewModel/BenchmarkViewModel.cs:269-273 | a slot begins with the mode's name and ": ", and contains no '|' unless the selected text of the mode's result does |
| Summary.FormatThreeCases | SfChartBenchmark/ViewModel/BenchmarkViewModel.cs:267-280 | the text begins with the FastLine slot and the separator, and is exactly as long as the three slots and two separators together |
| Summary.FormatThreeCasesSplits | SfChartBenchmark/ViewModel/BenchmarkViewModel.cs:267-280 | the text splits at '|' into exactly three pieces, FastLine, FastLineBitmap and FastLineBitmap+AA in that order, each "name: -" when the key is absent and "name: " and the selector's output when present |
| Summary.FormatThreeCasesOneMode | SfChartBenchmark/ViewModel/BenchmarkViewModel.cs:269-273 | with one mode stored, its slot shows the selected text and every other slot "name: -" |
| Summary.FormatThreeCasesSelected | SfChartBenchmark/ViewModel/BenchmarkViewModel.cs:267-280 | the text depends on the store only through its keys and what the selector makes of each result |
| ViewModel.SamplerAfterRun | SfChartBenchmark/ViewModel/BenchmarkViewModel.cs:222-248 | the waits of a run keep the sample list within 1000 |
| ViewModel.TicksFromEmpty | SfChartBenchmark/ViewModel/BenchmarkViewModel.cs:225-248 | ticks delivered to an emptied sample list leave the last 1000 readings, less the first when the watch had been stopped |
| ViewModel.SamplerAfterRunKeepsZoomSamples | SfChartBenchmark/ViewModel/BenchmarkViewModel.cs:238-250 | the samples averaged at the end of a run are the zoom scenario's ticks only |
| ViewModel.LoadedEntry | SfChartBenchmark/ViewModel/BenchmarkViewModel.cs:208-213 | the entry after scenario 1 carries the load time and memory delta; it is the stored record otherwise unchanged, or a new record with the mode's key as series type and zeros elsewhere |
| ViewModel.LoadTextsIgnoreInteraction | SfChartBenchmark/ViewModel/BenchmarkViewModel.cs:219-256 | recording the interaction timings does not change the load and memory texts |
| ViewModel.MetricCell | SfChartBenchmark/ViewModel/BenchmarkViewModel.cs:219-262 | the load, pan/scroll and zoom cells read back as the record's timing followed by " ms"; the memory cell ends with " MB" and the responsiveness cell with " ms/frame" |
| ViewModel.LoadedStatus | SfChartBenchmark/ViewModel/BenchmarkViewModel.cs:206 | the status after loading reads back as the load time between "Chart loaded in " and " ms. Starting interaction tests..." |
| ViewModel.StoreLoad | SfChartBenchmark/ViewModel/BenchmarkViewModel.cs:206-214 | after scenario 1 the store is the old one with the current mode's entry replaced by `LoadedEntry` |
| ViewModel.PushLoad | SfChartBenchmark/ViewModel/BenchmarkViewModel.cs:216-217 | only the load and memory histories change; each stays within ten values and ends with the value just pushed |
| ViewModel.LoadStep | SfChartBenchmark/ViewModel/BenchmarkViewModel.cs:206-217 | after scenario 1 and its history pushes the store is the old one with the current mode's entry replaced by `LoadedEntry` |
| ViewModel.ShowLoad | SfChartBenchmark/ViewModel/BenchmarkViewModel.cs:219-220 | only the load and memory texts change; the store and every other field are kept |
| ViewModel.LoadPhase | SfChartBenchmark/ViewModel/BenchmarkViewModel.cs:206-220 | after scenario 1 and its texts the store is the old one with the current mode's entry replaced by `LoadedEntry`, and the chart flag, settings and sampler are kept |
| ViewModel.ScenarioStep | SfChartBenchmark/ViewModel/BenchmarkViewModel.cs:222-248 | only the sampler changes, and it stays within 1000 samples |
| ViewModel.FinishStep | SfChartBenchmark/ViewModel/BenchmarkViewModel.cs:250-264 | the record handed over by scenario 1 is stored again under its key with the pan/scroll and zoom times and the average frame time; the responsiveness history stays within ten values and ends with that average; the status is "Benchmark Completed!"; nothing else changes |
| ViewModel.ShowInteraction | SfChartBenchmark/ViewModel/BenchmarkViewModel.cs:260-262 | only the pan/scroll, zoom and responsiveness texts change; the load and memory texts are kept |
| ViewModel.InteractionPhase | SfChartBenchmark/ViewModel/BenchmarkViewModel.cs:222-264 | the sampler is the one after the run's waits, the status is "Benchmark Completed!", and the store holds the handed-over record completed with the interaction measurements under its key |
| ViewModel.RunSpec | SfChartBenchmark/ViewModel/BenchmarkViewModel.cs:170-265 | without a chart a run changes nothing; with one it leaves the chart and both settings as they were |
| ViewModel.RunStoresEntry | SfChartBenchmark/ViewModel/BenchmarkViewModel.cs:208-256 | the store after a run is the old one with the entry of scenario 1 stored under the current key, then stored again with the interaction measurements |
| ViewModel.RunUpsertsResult | SfChartBenchmark/ViewModel/BenchmarkViewModel.cs:208-256 | after a run the store holds the current mode, which it adds if missing. Its stored record keeps its series type, or a new one gets the key, and carries the five measurements of the run. Every other mode is untouched |
| ViewModel.RunKeepsConsistent | SfChartBenchmark/ViewModel/BenchmarkViewModel.cs:170-265 | a run keeps the histories within 10, the samples within 1000 and every stored record's series type equal to its key; the current mode's record carries `CurrentKey` |
| ViewModel.RunPushesHistories | SfChartBenchmark/ViewModel/BenchmarkViewModel.cs:216-264 | a run pushes the load time, the memory delta and the average frame time onto their histories and ends with status "Benchmark Completed!" |
| ViewModel.RunTextsDescribeStore | SfChartBenchmark/ViewModel/BenchmarkViewModel.cs:219-262 | after a run all five comparison texts describe the final store |
| ViewModel.BenchmarkViewModel.constructor | SfChartBenchmark/ViewModel/BenchmarkViewModel.cs:13-75 | the initial state: empty histories, store and samples, status "Ready.", series type "FastLineSeries", AA off, every text "-", no chart, stopped watch and the generated dataset |
| ViewModel.BenchmarkViewModel.OnRenderingTick | SfChartBenchmark/ViewModel/BenchmarkViewModel.cs:77-89 | the sampler fields move as `Tick` says: a stopped watch is only started, a running one records the reading within the 1000 bound |
| ViewModel.BenchmarkViewModel.RunBenchmark | SfChartBenchmark/ViewModel/BenchmarkViewModel.cs:170-265 | the bookkeeping state moves as `RunSpec` says, so nothing changes without a chart, and the invariant is kept |
| ViewModel.BenchmarkViewModel.RunScenarios | SfChartBenchmark/ViewModel/BenchmarkViewModel.cs:174-264 | the state moves as `RunSpec` says for a view model with a chart, scenario 1 handing its key and record to the interaction scenarios |
| ViewModel.BenchmarkViewModel.LoadScenario | SfChartBenchmark/ViewModel/BenchmarkViewModel.cs:174-220 | the state moves as `LoadPhase` says, and the key and record it returns are the current mode and `LoadedEntry` |
| ViewModel.BenchmarkViewModel.InteractionScenarios | SfChartBenchmark/ViewModel/BenchmarkViewModel.cs:222-264 | the state moves as `InteractionPhase` says for the key and record it is given |
| ViewModel.BenchmarkViewModel.RecordLoad | SfChartBenchmark/ViewModel/BenchmarkViewModel.cs:174-217 | the state moves as `LoadStep` says, the transient "Benchmark Started" status being overwritten; it returns the current mode and `LoadedEntry` |
| ViewModel.BenchmarkViewModel.StoreLoadResult | SfChartBenchmark/ViewModel/BenchmarkViewModel.cs:206-214 | the state moves as `StoreLoad` says; it returns the key and the record it stored, the source's locals `key` and `r` |
| ViewModel.BenchmarkViewModel.PushLoadHistories | SfChartBenchmark/ViewModel/BenchmarkViewModel.cs:216-217 | the state moves as `PushLoad` says |
| ViewModel.BenchmarkViewModel.ShowLoadTexts | SfChartBenchmark/ViewModel/BenchmarkViewModel.cs:219-220 | the state moves as `ShowLoad` says |
| ViewModel.BenchmarkViewModel.AwaitScenarios | SfChartBenchmark/ViewModel/BenchmarkViewModel.cs:222-248 | the state moves as `ScenarioStep` says |
| ViewModel.BenchmarkViewModel.RecordInteraction | SfChartBenchmark/ViewModel/BenchmarkViewModel.cs:250-264 | the state moves as `FinishStep` says for the key and record scenario 1 stored |
| ViewModel.BenchmarkViewModel.ShowInteractionTexts | SfChartBenchmark/ViewModel/BenchmarkViewModel.cs:260-262 | the state moves as `ShowInteraction` says |
| ViewModel.BenchmarkViewModel.Clear | SfChartBenchmark/ViewModel/BenchmarkViewModel.cs:282-292 | the store and all three histories are empty, all five texts are "-", the status is "Cleared. Ready.", and the invariant is kept |
| ViewModel.BenchmarkViewModel.ClearStore | SfChartBenchmark/ViewModel/BenchmarkViewModel.cs:285-288 | the store and the three histories are empty |
| ViewModel.BenchmarkViewModel.ResetTexts | SfChartBenchmark/ViewModel/BenchmarkViewModel.cs:290 | all five texts are "-" |

## Left out

- The chart control is left out: `CreateSeries`, the `Chart.Series` assignments, the axis zoom writes, `ZoomToAsync` and its `Math.Clamp` logic, the pan position formula, brushes. These are calls into a third-party control whose behaviour is not visible. The chart is reduced to whether one is attached.
- Render awaits, `Task.Delay` and async sequencing are left out. `RunBenchmark` runs a benchmark to completion in one step. The rendering ticks that arrive during its waits are inputs, applied in order. Interleavings with `Clear`, or with a second run started during a wait, are not modelled.
- Changes to `SelectedSeriesType` or `EnableAA` during a run's waits are not modelled. The source builds the series options from the settings at lines 187-188 and reads them again for the key at line 208, after an await. The model reads the settings once per run, so the stored key always names the series that was built. The interaction scenarios reuse the key and record scenario 1 produced, as the source does at line 256.
- `Stopwatch`, `GC.Collect` and `GC.GetTotalMemory` are left out. The elapsed times and the memory delta are run inputs, and a tick's stopwatch reading is a parameter.
- Floating point is left out: doubles are reals. `frameTimes.Average()` is the exact mean. Converting a `long` load time to `double` is exact. The random y values are sums of draws from the streams.
- The `F1` and `F2` formats are the parameters `formatF1` and `formatF2`, with nothing assumed about them.
- `INotifyPropertyChanged`, `OnPropertyChanged`, `RelayCommand` and `CommandManager.InvalidateRequerySuggested` are left out as data-binding plumbing.
- MainWindow.xaml.cs is not part of this model, being window wiring only.
- The result dictionary's string keys are the `Mode` enumeration. Only `CurrentKey` values are ever stored, and `Modes.KeyInjective` shows that a key and its mode determine each other.
- `FormatThreeCases` takes `title` and `extraLabel` arguments that it never reads, so they are dropped.
- Results.ParseTimingsOfToString: reads back only the three integer timings. The Mem and UI fields go through the formatting parameters, so their place in the line is stated only as the " ms, Mem=" that follows the zoom time.
- ViewModel.BenchmarkViewModel.RecordLoad: the "Benchmark Started" status is overwritten before anything can observe it in this atomic model, so no contract mentions it.
- `BenchmarkResult` is a mutable class in the source. The record a run reuses is updated in place and stored again under its key. It is a value here, replaced in the map, which gives the same store.
