/** The record the benchmark keeps per rendering mode
    (SfChartBenchmark/Model/BenchmarkResult.cs). */
module Results {
  import opened Decimal

  /** A C# `long`: the three timing fields are 64-bit integers. */
  type Long = x: int | -0x8000_0000_0000_0000 <= x < 0x8000_0000_0000_0000

  /** Timings are whole milliseconds; memory and frame time are `double`s, taken
      here as reals. */
  datatype BenchmarkResult = BenchmarkResult(
    seriesType: string,
    initialLoadMs: Long,
    panScrollMs: Long,
    zoomMs: Long,
    memoryMB: real,
    avgUIFrameMs: real)
  {
    /** The one-line summary. `formatF1` and `formatF2` stand for the runtime's
        fixed-point formatting with one and two decimals. */
    function ToString(formatF1: real -> string, formatF2: real -> string): (s: string)
      ensures seriesType + ": Load=" <= s
      ensures |s| >= 3 && s[|s| - 3..] == " ms"
    {
      (seriesType + ": Load=") + (IntToString(initialLoadMs) + (" ms, Pan/Scroll=" + (IntToString(panScrollMs)
      + (" ms, Zoom=" + (IntToString(zoomMs) + (" ms, Mem=" + (formatF1(memoryMB) + (" MB, UI="
      + (formatF2(avgUIFrameMs) + " ms")))))))))
    }
  }

  /** `new BenchmarkResult()`: every property at its initial value. */
  function NewBenchmarkResult(): (r: BenchmarkResult)
    ensures r.seriesType == ""
    ensures r.initialLoadMs == 0 && r.panScrollMs == 0 && r.zoomMs == 0
    ensures r.memoryMB == 0.0 && r.avgUIFrameMs == 0.0
  {
    BenchmarkResult("", 0, 0, 0, 0.0, 0.0)
  }

  /** `s` with the literal `lit` removed from its front, if it starts with it. */
  function StripLiteral(lit: string, s: string): (r: Option<string>)
    ensures r.Some? <==> lit <= s
    ensures r.Some? ==> s == lit + r.value
  {
    if lit <= s then
      assert s == lit + s[|lit|..];
      Some(s[|lit|..])
    else None
  }

  lemma StripLiteralOf(lit: string, t: string)
    ensures StripLiteral(lit, lit + t) == Some(t)
  {
    assert lit <= lit + t;
    assert (lit + t)[|lit|..] == t;
  }

  /** The integer that follows the literal `lit` at the front of `s`, and the
      text after it. */
  function ReadField(lit: string, s: string): Option<(int, string)>
  {
    match StripLiteral(lit, s)
    case None => None
    case Some(rest) => ReadInt(rest)
  }

  /** Reads the three integer timings back out of a summary line whose series
      type is known: the inverse of `ToString` on the integer fields. */
  function ParseTimings(s: string, seriesType: string): Option<(int, int, int)>
  {
    match ReadField(seriesType + ": Load=", s)
    case None => None
    case Some((load, s1)) =>
      match ReadField(" ms, Pan/Scroll=", s1)
      case None => None
      case Some((pan, s2)) =>
        match ReadField(" ms, Zoom=", s2)
        case None => None
        case Some((zoom, s3)) =>
          if " ms, Mem=" <= s3 then Some((load, pan, zoom)) else None
  }

  lemma ReadFieldOf(lit: string, n: int, t: string)
    requires Delimited(t)
    ensures ReadField(lit, lit + (IntToString(n) + t)) == Some((n, t))
  {
    StripLiteralOf(lit, IntToString(n) + t);
    ReadIntOfIntToString(n, t);
  }

  /** The three integer timings can be read back from the summary line. */
  lemma ParseTimingsOfToString(b: BenchmarkResult, formatF1: real -> string, formatF2: real -> string)
    ensures ParseTimings(b.ToString(formatF1, formatF2), b.seriesType)
         == Some((b.initialLoadMs as int, b.panScrollMs as int, b.zoomMs as int))
  {
    var tailZ := " ms, Mem=" + (formatF1(b.memoryMB) + " MB, UI=" + (formatF2(b.avgUIFrameMs) + " ms"));
    var tailP := " ms, Zoom=" + (IntToString(b.zoomMs) + tailZ);
    var tailL := " ms, Pan/Scroll=" + (IntToString(b.panScrollMs) + tailP);
    var head := b.seriesType + ": Load=";
    var line := b.ToString(formatF1, formatF2);
    assert ReadField(head, line) == Some((b.initialLoadMs as int, tailL)) by {
      assert line == head + (IntToString(b.initialLoadMs) + tailL);
      ReadFieldOf(head, b.initialLoadMs, tailL);
    }
    assert ReadField(" ms, Pan/Scroll=", tailL) == Some((b.panScrollMs as int, tailP)) by {
      ReadFieldOf(" ms, Pan/Scroll=", b.panScrollMs, tailP);
    }
    assert ReadField(" ms, Zoom=", tailP) == Some((b.zoomMs as int, tailZ)) by {
      ReadFieldOf(" ms, Zoom=", b.zoomMs, tailZ);
    }
    assert " ms, Mem=" <= tailZ;
    ParseTimingsSteps(line, b.seriesType, b.initialLoadMs, b.panScrollMs, b.zoomMs, tailL, tailP, tailZ);
  }

  lemma ParseTimingsSteps(s: string, seriesType: string, load: int, pan: int, zoom: int, s1: string, s2: string, s3: string)
    requires ReadField(seriesType + ": Load=", s) == Some((load, s1))
    requires ReadField(" ms, Pan/Scroll=", s1) == Some((pan, s2))
    requires ReadField(" ms, Zoom=", s2) == Some((zoom, s3))
    requires " ms, Mem=" <= s3
    ensures ParseTimings(s, seriesType) == Some((load, pan, zoom))
  {
  }

  /** A fresh record prints with an empty series type and zero timings. */
  lemma NewBenchmarkResultToString(formatF1: real -> string, formatF2: real -> string)
    ensures ": Load=" <= NewBenchmarkResult().ToString(formatF1, formatF2)
    ensures ParseTimings(NewBenchmarkResult().ToString(formatF1, formatF2), "") == Some((0, 0, 0))
  {
    ParseTimingsOfToString(NewBenchmarkResult(), formatF1, formatF2);
  }
}
