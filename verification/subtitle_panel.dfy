/** The subtitle panel: which lines are shown around the current one, and
    how strongly each shown line is emphasised. Everything here is a pure
    function of the subtitle list and the current index. */
module SubtitlePanel {
  import opened Wrappers

  /** One timed caption; its interval runs from `startTime` to the next
      line's start. */
  datatype SubtitleLine = SubtitleLine(id: string, text: string, timestamp: string, startTime: int)

  /** The three style classes a line can get. */
  datatype LineClass = Current | Adjacent | Distant

  function Abs(x: int): (r: nat)
    ensures r == x || r == -x
  {
    if x < 0 then -x else x
  }

  /** The class of the line at `index` while line `currentIndex` is current. */
  function GetLineClass(index: int, currentIndex: int): (r: LineClass)
    ensures r == Current <==> index == currentIndex
    ensures r == Adjacent <==> Abs(index - currentIndex) == 1
    ensures r == Distant <==> Abs(index - currentIndex) >= 2
  {
    var diff := index - currentIndex;
    if diff == 0 then Current
    else if Abs(diff) == 1 then Adjacent
    else Distant
  }

  /** The opacity percentage of the line at `index` (the class is
      "opacity-" followed by this number). */
  function GetLineOpacity(index: int, currentIndex: int): (r: nat)
    ensures r in {100, 75, 50, 35}
    ensures r == 100 <==> index == currentIndex
    ensures r == 75 <==> Abs(index - currentIndex) == 1
    ensures r == 50 <==> Abs(index - currentIndex) == 2
    ensures r == 35 <==> Abs(index - currentIndex) >= 3
  {
    var diff := Abs(index - currentIndex);
    if diff == 0 then 100
    else if diff == 1 then 75
    else if diff == 2 then 50
    else 35
  }

  /** Opacity is symmetric about the current line. */
  lemma OpacitySymmetric(currentIndex: int, k: int)
    ensures GetLineOpacity(currentIndex - k, currentIndex) == GetLineOpacity(currentIndex + k, currentIndex)
    ensures GetLineClass(currentIndex - k, currentIndex) == GetLineClass(currentIndex + k, currentIndex)
  {
  }

  /** Opacity never grows as a line gets further from the current one. */
  lemma OpacityNonIncreasing(a: int, b: int, currentIndex: int)
    requires Abs(a - currentIndex) <= Abs(b - currentIndex)
    ensures GetLineOpacity(a, currentIndex) >= GetLineOpacity(b, currentIndex)
  {
  }

  /** The class tier is the opacity tier with distances 2 and beyond merged. */
  lemma ClassMatchesOpacity(index: int, currentIndex: int)
    ensures GetLineClass(index, currentIndex) == Current <==> GetLineOpacity(index, currentIndex) == 100
    ensures GetLineClass(index, currentIndex) == Adjacent <==> GetLineOpacity(index, currentIndex) == 75
    ensures GetLineClass(index, currentIndex) == Distant <==> GetLineOpacity(index, currentIndex) <= 50
  {
  }

  /** How many lines on each side of the current one are shown. */
  const VisibleRange: int := 3

  /** `Math.max(0, currentIndex - visibleRange)`. */
  function StartIndex(currentIndex: int): (r: int)
    ensures r >= 0 && r >= currentIndex - VisibleRange
    ensures r == 0 || r == currentIndex - VisibleRange
  {
    if currentIndex - VisibleRange > 0 then currentIndex - VisibleRange else 0
  }

  /** `Math.min(subtitles.length - 1, currentIndex + visibleRange)`. */
  function EndIndex(length: nat, currentIndex: int): (r: int)
    ensures r <= length - 1 && r <= currentIndex + VisibleRange
    ensures r == length - 1 || r == currentIndex + VisibleRange
  {
    if length - 1 < currentIndex + VisibleRange then length - 1 else currentIndex + VisibleRange
  }

  /** The window always holds the current line and stays inside the list. */
  lemma WindowBounds(length: nat, currentIndex: int)
    requires 0 <= currentIndex < length
    ensures 0 <= StartIndex(currentIndex) <= currentIndex <= EndIndex(length, currentIndex) <= length - 1
    ensures EndIndex(length, currentIndex) - StartIndex(currentIndex) + 1 <= 2 * VisibleRange + 1
  {
  }

  /** How `Array.prototype.slice` turns one argument into a position in
      0..length: negative values count from the end, large values clamp. */
  function SlicePosition(length: nat, k: int): (r: nat)
    ensures r <= length
    ensures 0 <= k <= length ==> r == k
    ensures k > length ==> r == length
    ensures k < 0 ==> r == (if length + k < 0 then 0 else length + k)
  {
    if k < 0 then (if length + k < 0 then 0 else length + k)
    else if k > length then length
    else k
  }

  /** `s.slice(start, end)`. */
  function Slice<T>(s: seq<T>, start: int, end: int): (r: seq<T>)
    ensures var a, b := SlicePosition(|s|, start), SlicePosition(|s|, end);
      (a < b ==> |r| == b - a && forall i :: 0 <= i < |r| ==> r[i] == s[a + i]) &&
      (b <= a ==> r == [])
  {
    var a, b := SlicePosition(|s|, start), SlicePosition(|s|, end);
    if a < b then s[a..b] else []
  }

  /** The lines the panel renders: `subtitles.slice(startIndex, endIndex + 1)`. */
  function VisibleSubtitles(subtitles: seq<SubtitleLine>, currentIndex: int): (r: seq<SubtitleLine>)
    ensures 0 <= currentIndex < |subtitles| ==>
      |r| == EndIndex(|subtitles|, currentIndex) - StartIndex(currentIndex) + 1 &&
      |r| <= 2 * VisibleRange + 1 &&
      forall idx :: 0 <= idx < |r| ==> r[idx] == subtitles[StartIndex(currentIndex) + idx]
    ensures |subtitles| == 0 ==> r == []
  {
    Slice(subtitles, StartIndex(currentIndex), EndIndex(|subtitles|, currentIndex) + 1)
  }

  /** The list index of the line rendered at position `idx`. */
  function ActualIndex(currentIndex: int, idx: int): int {
    StartIndex(currentIndex) + idx
  }

  /** Exactly one rendered position is the current line: position
      `cur - start`, which lies inside the window. */
  lemma ExactlyOneCurrentVisible(subtitles: seq<SubtitleLine>, currentIndex: int)
    requires 0 <= currentIndex < |subtitles|
    ensures 0 <= currentIndex - StartIndex(currentIndex) < |VisibleSubtitles(subtitles, currentIndex)|
    ensures forall idx :: 0 <= idx < |VisibleSubtitles(subtitles, currentIndex)| ==>
      (ActualIndex(currentIndex, idx) == currentIndex <==> idx == currentIndex - StartIndex(currentIndex))
  {
  }

  /** Every rendered line is within `VisibleRange` of the current one. */
  lemma VisibleLinesAreNear(subtitles: seq<SubtitleLine>, currentIndex: int, idx: int)
    requires 0 <= currentIndex < |subtitles|
    requires 0 <= idx < |VisibleSubtitles(subtitles, currentIndex)|
    ensures Abs(ActualIndex(currentIndex, idx) - currentIndex) <= VisibleRange
  {
  }

  /** `subtitles[currentIndex]`, which is `undefined` outside the list; the
      Save and Note buttons act only when it is defined. */
  function CurrentLine(subtitles: seq<SubtitleLine>, currentIndex: int): (r: Option<SubtitleLine>)
    ensures r.Some? <==> 0 <= currentIndex < |subtitles|
    ensures r.Some? ==> r.value == subtitles[currentIndex]
  {
    if 0 <= currentIndex < |subtitles| then Some(subtitles[currentIndex]) else None
  }
}
