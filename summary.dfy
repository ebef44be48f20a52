/** `FormatThreeCases`: the side-by-side comparison text of one metric over the
    three modes, with "-" for a mode that has no result yet. */
module Summary {
  import opened Results
  import opened Modes

  const Separator: string := " | "
  const Placeholder: string := "-"

  /** The display name of a mode's slot. */
  function SlotName(mode: Mode): string
  {
    match mode
    case FLS => "FastLine"
    case FLB => "FastLineBitmap"
    case FLB_AA => "FastLineBitmap+AA"
  }

  /** One slot (the local function `F`): the name, then the selected text of the
      mode's result, or the placeholder when the store has none. */
  function Cell(src: map<Mode, BenchmarkResult>, sel: BenchmarkResult -> string, mode: Mode): (c: string)
    ensures SlotName(mode) + ": " <= c
    ensures (mode in src ==> '|' !in sel(src[mode])) ==> '|' !in c
  {
    if mode !in src then SlotName(mode) + ": " + Placeholder else SlotName(mode) + ": " + sel(src[mode])
  }

  /** `string.Join(" | ", ...)` of the slots FastLine, FastLineBitmap and
      FastLineBitmap+AA. */
  function FormatThreeCases(src: map<Mode, BenchmarkResult>, sel: BenchmarkResult -> string): (r: string)
    ensures Cell(src, sel, FLS) + Separator <= r
    ensures |r| == |Cell(src, sel, FLS)| + |Cell(src, sel, FLB)| + |Cell(src, sel, FLB_AA)| + 2 * |Separator|
  {
    Cell(src, sel, FLS) + (Separator + (Cell(src, sel, FLB) + (Separator + Cell(src, sel, FLB_AA))))
  }

  /** The pieces of `s` between occurrences of `c`. */
  function SplitOn(s: string, c: char): (parts: seq<string>)
    ensures |parts| >= 1
  {
    if s == [] then [""]
    else
      var rest := SplitOn(s[1..], c);
      if s[0] == c then [""] + rest else [[s[0]] + rest[0]] + rest[1..]
  }

  lemma {:induction false} SplitOnWithout(x: string, c: char)
    requires c !in x
    ensures SplitOn(x, c) == [x]
  {
    if x != [] {
      SplitOnWithout(x[1..], c);
      assert [x[0]] + x[1..] == x;
    }
  }

  lemma {:induction false} SplitOnAppend(x: string, c: char, y: string)
    requires c !in x
    ensures SplitOn(x + [c] + y, c) == [x] + SplitOn(y, c)
  {
    var s := x + [c] + y;
    if x == [] {
      assert s[1..] == y;
    } else {
      assert s[1..] == x[1..] + [c] + y;
      SplitOnAppend(x[1..], c, y);
      assert [x[0]] + x[1..] == x;
    }
  }

  /** Text joined at the separator splits there, the blanks of the separator
      staying with the pieces. */
  lemma SplitAtSeparator(x: string, y: string)
    requires '|' !in x
    ensures SplitOn(x + (Separator + y), '|') == [x + " "] + SplitOn(" " + y, '|')
  {
    assert x + (Separator + y) == (x + " ") + ['|'] + (" " + y);
    SplitOnAppend(x + " ", '|', " " + y);
  }

  /** When no selected text contains '|', the text splits at '|' into exactly
      three pieces, which are the slots of FastLine, FastLineBitmap and
      FastLineBitmap+AA in that order (with the blanks around the bars). */
  lemma FormatThreeCasesSplits(src: map<Mode, BenchmarkResult>, sel: BenchmarkResult -> string)
    requires forall k :: k in src ==> '|' !in sel(src[k])
    ensures SplitOn(FormatThreeCases(src, sel), '|')
         == [SlotName(FLS) + ": " + (if FLS in src then sel(src[FLS]) else Placeholder) + " ",
             " " + SlotName(FLB) + ": " + (if FLB in src then sel(src[FLB]) else Placeholder) + " ",
             " " + SlotName(FLB_AA) + ": " + (if FLB_AA in src then sel(src[FLB_AA]) else Placeholder)]
  {
    var c0, c1, c2 := Cell(src, sel, FLS), Cell(src, sel, FLB), Cell(src, sel, FLB_AA);
    assert '|' !in c0 && '|' !in c1 && '|' !in c2;
    SplitAtSeparator(c0, c1 + (Separator + c2));
    assert " " + (c1 + (Separator + c2)) == (" " + c1) + (Separator + c2);
    assert '|' !in " " + c1;
    SplitAtSeparator(" " + c1, c2);
    assert '|' !in " " + c2;
    SplitOnWithout(" " + c2, '|');
    assert SplitOn(FormatThreeCases(src, sel), '|') == [c0 + " ", " " + c1 + " ", " " + c2];
    assert c0 + " " == SlotName(FLS) + ": " + (if FLS in src then sel(src[FLS]) else Placeholder) + " ";
    assert " " + c1 + " " == " " + SlotName(FLB) + ": " + (if FLB in src then sel(src[FLB]) else Placeholder) + " ";
    assert " " + c2 == " " + SlotName(FLB_AA) + ": " + (if FLB_AA in src then sel(src[FLB_AA]) else Placeholder);
  }

  /** With one mode in the store, that slot shows the selected text and the
      other two the placeholder. */
  lemma FormatThreeCasesOneMode(r: BenchmarkResult, sel: BenchmarkResult -> string, mode: Mode, other: Mode)
    requires other != mode
    ensures Cell(map[mode := r], sel, mode) == SlotName(mode) + ": " + sel(r)
    ensures Cell(map[mode := r], sel, other) == SlotName(other) + ": -"
  {
  }

  /** The text depends on the stored results only through what `sel` makes of
      them. */
  lemma FormatThreeCasesSelected(src: map<Mode, BenchmarkResult>, src': map<Mode, BenchmarkResult>, sel: BenchmarkResult -> string)
    requires src.Keys == src'.Keys
    requires forall k :: k in src ==> sel(src[k]) == sel(src'[k])
    ensures FormatThreeCases(src, sel) == FormatThreeCases(src', sel)
  {
    forall mode: Mode
      ensures Cell(src, sel, mode) == Cell(src', sel, mode)
    {
    }
  }
}
