/** Splitting a source file into overlapping windows (internal/ingest/chunker.go). */
module Chunker {
  import opened Basics

  type Runes = seq<char>

  datatype Window = Window(index: nat, start: nat, end: nat, lineStart: nat, lineEnd: nat, text: Runes)

  const DEFAULT_SIZE := 4096

  function Newlines(text: Runes): nat {
    if text == [] then 0 else Newlines(text[..|text| - 1]) + if text[|text| - 1] == '\n' then 1 else 0
  }

  /** The i-th window of the text: `size` runes from `i` steps in, cut at the end of the text. */
  function WindowAt(runes: Runes, size: nat, step: nat, i: nat): Window
    requires i * step <= |runes|
  {
    var start, end := i * step, Min(i * step + size, |runes|);
    Window(i, start, end, 1 + Newlines(runes[..start]), 1 + Newlines(runes[..end]), runes[start..end])
  }

  /** The windows are consecutive steps through the text; only the last reaches its end, and every one before is full. */
  ghost predicate Tiles(runes: Runes, size: nat, overlap: nat, windows: seq<Window>)
    requires overlap < size
  {
    var step := size - overlap;
    && (windows == [] <==> runes == [])
    && (forall i :: 0 <= i < |windows| ==> i * step < |runes| && windows[i] == WindowAt(runes, size, step, i))
    && (forall i :: 0 <= i < |windows| - 1 ==> windows[i].end < |runes|)
    && (windows != [] ==> windows[|windows| - 1].end == |runes|)
  }

  lemma {:induction false} NewlinesAdd(a: Runes, b: Runes)
    ensures Newlines(a + b) == Newlines(a) + Newlines(b)
  {
    if b == [] {
      assert a + b == a;
    } else {
      assert (a + b)[..|a + b| - 1] == a + b[..|b| - 1];
      NewlinesAdd(a, b[..|b| - 1]);
    }
  }

  method Count(text: Runes) returns (n: nat)
    ensures n == Newlines(text)
  {
    n := 0;
    for i := 0 to |text|
      invariant n == Newlines(text[..i])
    {
      assert text[..i + 1][..i] == text[..i];
      if text[i] == '\n' { n := n + 1; }
    }
    assert text[..|text|] == text;
  }

  /** Full windows only, so far. */
  ghost predicate Begun(runes: Runes, size: nat, step: nat, windows: seq<Window>) {
    forall i :: 0 <= i < |windows| ==>
      i * step < |runes| && windows[i] == WindowAt(runes, size, step, i) && windows[i].end < |runes|
  }

  lemma BegunGrows(runes: Runes, size: nat, step: nat, windows: seq<Window>, w: Window)
    requires Begun(runes, size, step, windows) && |windows| * step < |runes|
    requires w == WindowAt(runes, size, step, |windows|) && w.end < |runes|
    ensures Begun(runes, size, step, windows + [w])
  {
  }

  lemma LastWindowTiles(runes: Runes, size: nat, overlap: nat, windows: seq<Window>, w: Window)
    requires overlap < size
    requires Begun(runes, size, size - overlap, windows) && |windows| * (size - overlap) < |runes|
    requires w == WindowAt(runes, size, size - overlap, |windows|) && w.end == |runes|
    ensures Tiles(runes, size, overlap, windows + [w])
  {
  }

  /** `data` is the decoded text, absent when the bytes are not UTF-8. */
  method Chunk(data: Option<Runes>, size: int, overlap: int) returns (r: Result<seq<Window>>)
    ensures var width := if size <= 0 then DEFAULT_SIZE else size;
            if data.None? || overlap < 0 || overlap >= width then r == Err
            else r.Ok? && Tiles(data.value, width, overlap, r.value)
  {
    var width := if size <= 0 then DEFAULT_SIZE else size;
    if overlap < 0 || overlap >= width { return Err; }
    if data.None? { return Err; }
    var runes := data.value;
    if |runes| == 0 { return Ok([]); }
    var chunks := Windows(runes, width, overlap);
    r := Ok(chunks);
  }

  method Windows(runes: Runes, width: nat, overlap: nat) returns (chunks: seq<Window>)
    requires overlap < width && |runes| > 0
    ensures Tiles(runes, width, overlap, chunks)
  {
    hide Tiles, Begun, Newlines;
    var step := width - overlap;
    chunks := [];
    var start, index := 0, 0;
    assert Begun(runes, width, step, []) by { NothingBegun(runes, width, step); }
    while start < |runes|
      invariant index == |chunks| && start == index * step
      invariant Begun(runes, width, step, chunks) && start < |runes|
    {
      var end := start + width;
      if end > |runes| { end := |runes|; }
      var text := runes[start..end];
      var before := Count(runes[..start]);
      var lineStart := 1 + before;
      var inside := Count(text);
      NewlinesAdd(runes[..start], text);
      assert runes[..start] + text == runes[..end];
      var window := Window(index, start, end, lineStart, lineStart + inside, text);
      if end == |runes| {
        LastWindowTiles(runes, width, overlap, chunks, window);
        chunks := chunks + [window];
        break;
      }
      BegunGrows(runes, width, step, chunks, window);
      chunks := chunks + [window];
      NextStart(index, step);
      start, index := start + step, index + 1;
    }
  }

  lemma NothingBegun(runes: Runes, size: nat, step: nat)
    ensures Begun(runes, size, step, [])
  {
  }

  lemma NextStart(index: nat, step: nat)
    ensures (index + 1) * step == index * step + step
  {
  }

  // ----- What tiling means -----

  /** The first `step` runes of every window but the last, then the whole last window. */
  function Rebuilt(windows: seq<Window>, step: nat): Runes {
    if windows == [] then []
    else if |windows| == 1 then windows[0].text
    else (if step <= |windows[0].text| then windows[0].text[..step] else windows[0].text) + Rebuilt(windows[1..], step)
  }

  lemma HeadOfWindow(runes: Runes, start: nat, size: nat, step: nat)
    requires step <= size && start + size <= |runes|
    ensures runes[start..start + size][..step] + runes[start + step..] == runes[start..]
  {
  }

  lemma {:induction false} RebuildsFrom(runes: Runes, size: nat, overlap: nat, windows: seq<Window>, i: nat)
    requires overlap < size && Tiles(runes, size, overlap, windows) && i < |windows|
    ensures i * (size - overlap) < |runes|
    ensures Rebuilt(windows[i..], size - overlap) == runes[i * (size - overlap)..]
    decreases |windows| - i
  {
    hide Newlines;
    var step := size - overlap;
    var rest := windows[i..];
    assert rest[0] == windows[i];
    var start := i * step;
    assert start < |runes| && windows[i] == WindowAt(runes, size, step, i);
    if i < |windows| - 1 {
      assert rest[1..] == windows[i + 1..];
      RebuildsFrom(runes, size, overlap, windows, i + 1);
      NextStart(i, step);
      HeadOfWindow(runes, start, size, step);
    }
  }

  /** Nothing is lost or repeated: the windows rebuild the text. */
  lemma WindowsRebuildTheText(runes: Runes, size: nat, overlap: nat, windows: seq<Window>)
    requires overlap < size && Tiles(runes, size, overlap, windows)
    ensures Rebuilt(windows, size - overlap) == runes
  {
    if windows != [] {
      RebuildsFrom(runes, size, overlap, windows, 0);
      assert windows[0..] == windows && runes[0..] == runes;
    }
  }

  /** Windows but the last are full, every later one brings at least one new rune, and
      neighbours share exactly the overlap. */
  lemma WindowsAdvance(runes: Runes, size: nat, overlap: nat, windows: seq<Window>, i: nat)
    requires overlap < size && Tiles(runes, size, overlap, windows) && i + 1 < |windows|
    ensures |windows[i].text| == size
    ensures windows[i].end < windows[i + 1].end
    ensures windows[i].end - windows[i + 1].start == overlap
    ensures windows[i].lineStart <= windows[i].lineEnd == windows[i].lineStart + Newlines(windows[i].text)
  {
    var step := size - overlap;
    NextStart(i, step);
    assert windows[i] == WindowAt(runes, size, step, i) && windows[i].end < |runes|;
    assert windows[i + 1] == WindowAt(runes, size, step, i + 1);
    assert runes[..windows[i].end] == runes[..windows[i].start] + windows[i].text;
    NewlinesAdd(runes[..windows[i].start], windows[i].text);
  }

  /** Where the newlines before a position are. */
  function NewlinesBefore(runes: Runes, position: nat): set<nat> {
    set i: nat | i < position && i < |runes| && runes[i] == '\n'
  }

  /** The line a position is on: one more than the newlines before it. */
  function LineOf(runes: Runes, position: nat): nat {
    1 + |NewlinesBefore(runes, position)|
  }

  lemma OneMorePosition(runes: Runes, position: nat)
    requires position < |runes|
    ensures |NewlinesBefore(runes, position + 1)| ==
            |NewlinesBefore(runes, position)| + if runes[position] == '\n' then 1 else 0
  {
    var before := NewlinesBefore(runes, position);
    assert NewlinesBefore(runes, position + 1) == if runes[position] == '\n' then before + {position} else before;
  }

  lemma {:induction false} NewlinesAreCounted(runes: Runes, position: nat)
    requires position <= |runes|
    ensures 1 + Newlines(runes[..position]) == LineOf(runes, position)
  {
    if position == 0 {
      assert NewlinesBefore(runes, 0) == {};
    } else {
      hide NewlinesBefore;
      NewlinesAreCounted(runes, position - 1);
      OneMorePosition(runes, position - 1);
      assert runes[..position][..position - 1] == runes[..position - 1];
    }
  }

  /** Every window is the stretch of text it says, numbered in order, with the lines its ends are on. */
  lemma WindowsSayWhereTheyAre(runes: Runes, size: nat, overlap: nat, windows: seq<Window>, i: nat)
    requires overlap < size && Tiles(runes, size, overlap, windows) && i < |windows|
    ensures var w := windows[i];
            && w.index == i && w.start == i * (size - overlap) && w.end == Min(w.start + size, |runes|)
            && w.start < w.end && w.text == runes[w.start..w.end]
            && w.lineStart == LineOf(runes, w.start) && w.lineEnd == LineOf(runes, w.end)
  {
    hide LineOf;
    assert windows[i] == WindowAt(runes, size, size - overlap, i);
    NewlinesAreCounted(runes, windows[i].start);
    NewlinesAreCounted(runes, windows[i].end);
  }

  /** ceil(max(1, n - overlap) / step): the number of windows of a text of n > 0 runes. */
  function WindowCount(n: nat, size: nat, overlap: nat): nat
    requires overlap < size
  {
    if n == 0 then 0 else (Max(1, n - overlap) + (size - overlap) - 1) / (size - overlap)
  }

  lemma QuotientIs(a: nat, d: nat, q: nat)
    requires d > 0 && q * d <= a < q * d + d
    ensures a / d == q
  {
    var k := a / d;
    assert a == k * d + a % d;
    if k < q { assert (k + 1) * d <= q * d by { Multiply(k + 1, q, d); } NextStart(k, d); }
    if k > q { assert (q + 1) * d <= k * d by { Multiply(q + 1, k, d); } NextStart(q, d); }
  }

  lemma Multiply(a: nat, b: nat, d: nat)
    requires a <= b
    ensures a * d <= b * d
  {
  }

  /** The number of windows is decided by the lengths alone. */
  lemma WindowsAreCounted(runes: Runes, size: nat, overlap: nat, windows: seq<Window>)
    requires overlap < size && Tiles(runes, size, overlap, windows)
    ensures |windows| == WindowCount(|runes|, size, overlap)
  {
    var step := size - overlap;
    if windows != [] {
      var last := |windows| - 1;
      assert windows[last] == WindowAt(runes, size, step, last);
      NextStart(last, step);
      if last > 0 {
        assert windows[last - 1] == WindowAt(runes, size, step, last - 1);
        NextStart(last - 1, step);
      }
      QuotientIs(Max(1, |runes| - overlap) + step - 1, step, last + 1);
    }
  }

  /** There is only one way to tile a text: the chunks of a file are a function of it. */
  lemma TilingIsUnique(runes: Runes, size: nat, overlap: nat, a: seq<Window>, b: seq<Window>)
    requires overlap < size && Tiles(runes, size, overlap, a) && Tiles(runes, size, overlap, b)
    ensures a == b
  {
    WindowsAreCounted(runes, size, overlap, a);
    WindowsAreCounted(runes, size, overlap, b);
  }
}
