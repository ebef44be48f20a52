/** The frame-time sampler behind `OnRenderingTick`: a stopwatch that is either
    stopped or running, and a bounded list of frame durations. */
module FrameSampler {
  import opened History

  /** How many frame durations the sampler keeps. */
  const FrameCapacity: nat := 1000

  /** The stopwatch's running flag and the collected durations in milliseconds. */
  datatype SamplerState = SamplerState(running: bool, frameTimes: seq<real>)

  /** One rendering tick. `elapsedMs` is what the stopwatch reads at this tick,
      the time since it was last (re)started. The first tick of a stopped watch
      only starts it; a later tick records one sample, dropping the oldest one
      when there are more than `FrameCapacity`. */
  function Tick(st: SamplerState, elapsedMs: real): (r: SamplerState)
    ensures r.running
    ensures !st.running ==> r.frameTimes == st.frameTimes
    ensures st.running && |st.frameTimes| <= FrameCapacity
         ==> r.frameTimes == Window(st.frameTimes + [elapsedMs], FrameCapacity)
    ensures |st.frameTimes| <= FrameCapacity ==> |r.frameTimes| <= FrameCapacity
  {
    if !st.running then
      SamplerState(true, st.frameTimes)
    else
      var f := st.frameTimes + [elapsedMs];
      SamplerState(true, if |f| > FrameCapacity then f[1..] else f)
  }

  /** The state after the ticks `es`, in order. */
  function Ticks(st: SamplerState, es: seq<real>): SamplerState
    decreases |es|
  {
    if es == [] then st else Ticks(Tick(st, es[0]), es[1..])
  }

  /** While the watch runs, every tick is recorded and the list is the last
      `FrameCapacity` samples, oldest evicted first. */
  lemma {:induction false} TicksWhileRunning(frames: seq<real>, es: seq<real>)
    requires |frames| <= FrameCapacity
    ensures Ticks(SamplerState(true, frames), es) == SamplerState(true, Window(frames + es, FrameCapacity))
    decreases |es|
  {
    if es == [] {
      assert frames + es == frames;
    } else {
      var next := Window(frames + [es[0]], FrameCapacity);
      assert Tick(SamplerState(true, frames), es[0]) == SamplerState(true, next);
      TicksWhileRunning(next, es[1..]);
      WindowOfWindow(frames + [es[0]], es[1..], FrameCapacity);
      assert frames + [es[0]] + es[1..] == frames + es;
    }
  }

  /** After at least one tick the watch is running, and the samples are the
      last `FrameCapacity` of the old ones followed by the new ticks, except
      that a stopped watch discards its first tick as the baseline. */
  lemma TicksEffect(st: SamplerState, es: seq<real>)
    requires |st.frameTimes| <= FrameCapacity
    requires es != []
    ensures Ticks(st, es).running
    ensures Ticks(st, es).frameTimes
         == Window(st.frameTimes + (if st.running then es else es[1..]), FrameCapacity)
  {
    if st.running {
      TicksWhileRunning(st.frameTimes, es);
    } else {
      TicksWhileRunning(st.frameTimes, es[1..]);
      if es[1..] == [] {
        assert st.frameTimes + es[1..] == st.frameTimes;
      }
    }
  }

  /** No sequence of ticks lets the list grow past `FrameCapacity`. */
  lemma {:induction false} TicksBounded(st: SamplerState, es: seq<real>)
    requires |st.frameTimes| <= FrameCapacity
    ensures |Ticks(st, es).frameTimes| <= FrameCapacity
    ensures Ticks(st, es).running == (st.running || es != [])
    decreases |es|
  {
    if es != [] {
      TicksBounded(Tick(st, es[0]), es[1..]);
    }
  }

  function Sum(s: seq<real>): real
  {
    if s == [] then 0.0 else s[0] + Sum(s[1..])
  }

  /** `frameTimes.Count > 0 ? frameTimes.Average() : 0`, as an exact mean. */
  function AverageFrameTime(frames: seq<real>): (avg: real)
    ensures frames == [] ==> avg == 0.0
  {
    if |frames| > 0 then Sum(frames) / (|frames| as real) else 0.0
  }

  lemma {:induction false} SumBounds(s: seq<real>, lo: real, hi: real)
    requires forall i :: 0 <= i < |s| ==> lo <= s[i] <= hi
    ensures lo * (|s| as real) <= Sum(s) <= hi * (|s| as real)
  {
    if s != [] {
      SumBounds(s[1..], lo, hi);
      assert |s| as real == 1.0 + |s[1..]| as real;
    }
  }

  /** The average lies between the smallest and the largest sample. */
  lemma AverageWithinBounds(frames: seq<real>, lo: real, hi: real)
    requires frames != []
    requires forall i :: 0 <= i < |frames| ==> lo <= frames[i] <= hi
    ensures lo <= AverageFrameTime(frames) <= hi
  {
    SumBounds(frames, lo, hi);
    var n := |frames| as real;
    assert Sum(frames) / n * n == Sum(frames);
  }
}
