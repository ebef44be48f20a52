/** The bounded trend buffers of the view model (`LoadHistory`, `UIRespHistory`,
    `MemoryHistory`) and the sliding window that describes them. */
module History {

  /** How many values a history buffer keeps. */
  const HistoryCapacity: nat := 10

  /** The last `n` elements of `s` (all of `s` when it is shorter). */
  function Window<T>(s: seq<T>, n: nat): (w: seq<T>)
    ensures |w| <= n
  {
    if |s| <= n then s else s[|s| - n..]
  }

  /** The window is a suffix of `s`, and all of `s` unless it is full. */
  lemma WindowIsSuffix<T>(s: seq<T>, n: nat)
    ensures |Window(s, n)| <= |s|
    ensures Window(s, n) == s[|s| - |Window(s, n)|..]
    ensures |Window(s, n)| == n || Window(s, n) == s
  {
  }

  /** `PushHistory`: append `value`, then drop from the front until at most
      `HistoryCapacity` values remain. */
  method PushHistory(col: seq<real>, value: real) returns (r: seq<real>)
    ensures r == Window(col + [value], HistoryCapacity)
  {
    r := col + [value];
    ghost var pushed := r;
    while |r| > HistoryCapacity
      invariant |r| <= |pushed| && r == pushed[|pushed| - |r|..]
      invariant |r| >= HistoryCapacity || r == pushed
    {
      r := r[1..];
    }
  }

  /** The buffer after pushing each of `vs` in turn, one window step at a time. */
  function PushAll(h: seq<real>, vs: seq<real>): seq<real>
    decreases |vs|
  {
    if vs == [] then h else PushAll(Window(h + [vs[0]], HistoryCapacity), vs[1..])
  }

  /** Windowing first and then appending and windowing again is the same as
      appending and windowing once. */
  lemma WindowOfWindow<T>(s: seq<T>, t: seq<T>, n: nat)
    ensures Window(Window(s, n) + t, n) == Window(s + t, n)
  {
    var w := Window(s, n);
    if w != s {
      assert |w| == n;
      assert w + t == (s + t)[|s| - n..];
      if |t| > 0 {
        assert (w + t)[|w + t| - n..] == (s + t)[|s + t| - n..];
      }
    }
  }

  /** After any sequence of pushes the buffer holds at most `HistoryCapacity`
      values, and they are the last values pushed, in push order. (An
      over-full buffer that is never pushed to stays as it is.) */
  lemma {:induction false} PushAllIsWindow(h: seq<real>, vs: seq<real>)
    requires |h| <= HistoryCapacity || vs != []
    ensures PushAll(h, vs) == Window(h + vs, HistoryCapacity)
    decreases |vs|
  {
    if vs == [] {
      assert h + vs == h;
    } else {
      var h' := Window(h + [vs[0]], HistoryCapacity);
      PushAllIsWindow(h', vs[1..]);
      WindowOfWindow(h + [vs[0]], vs[1..], HistoryCapacity);
      assert h + [vs[0]] + vs[1..] == h + vs;
    }
  }
}
