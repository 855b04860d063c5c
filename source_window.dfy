/**
  The source window of a snapshot: up to eleven numbered lines of the file
  around the frame's current line, the current one marked with an arrow, or a
  single placeholder line when the source cannot be read.
 */
module SourceWindow {
  import opened Options
  import opened Text

  /** Lines shown on each side of the current line. */
  const Radius := 5

  const CurrentMarker := "--> "
  const OtherMarker := "    "

  /**
    Where reading the source raises, if anywhere: in `linecache.checkcache`
    before any line is read, or in `linecache.getline` for one line number.
   */
  datatype SourceFailure = NoFailure | CheckCacheRaises | GetLineRaises(lineNo: int)

  /**
    The source file as the line cache holds it: its lines, each with its line
    terminator, and where reading it fails.
   */
  datatype LineSource = LineSource(lines: seq<string>, failure: SourceFailure)

  /** One entry of the window: whether it is the current line, its number and its right-stripped text. */
  datatype SourceLine = SourceLine(current: bool, lineNo: nat, text: string)

  /** `linecache.getline`: line `n` (1-based) with its terminator, or "" past either end of the file. */
  function GetLine(lines: seq<string>, n: int): string
  {
    if 1 <= n <= |lines| then lines[n - 1] else ""
  }

  /** `max(1, lineno - 5)`: the first line number the window asks for. */
  function First(lineNo: int): int
  {
    if lineNo - Radius < 1 then 1 else lineNo - Radius
  }

  /** `lineno + 5`: the last line number the window asks for. */
  function Last(lineNo: int): int
  {
    lineNo + Radius
  }

  /** The integers `lo`, `lo + 1`, ..., `hi - 1`: Python's `range(lo, hi)`. */
  function Range(lo: int, hi: int): (r: seq<int>)
    decreases hi - lo
  {
    if hi <= lo then [] else Range(lo, hi - 1) + [hi - 1]
  }

  /** The line numbers the window hands to `getline`, in order: `range(First, Last + 1)`. */
  function RequestedLines(lineNo: int): seq<int>
  {
    Range(First(lineNo), Last(lineNo) + 1)
  }

  lemma {:induction false} RangeFacts(lo: int, hi: int)
    ensures |Range(lo, hi)| == if hi <= lo then 0 else hi - lo
    ensures forall k :: 0 <= k < |Range(lo, hi)| ==> Range(lo, hi)[k] == lo + k
    decreases hi - lo
  {
    if lo < hi {
      RangeFacts(lo, hi - 1);
    }
  }

  /**
    The window never asks for more than eleven lines, never for a line number
    below 1, asks in strictly ascending order, and stays within five lines of
    the current one; a current line of at least 1 is itself asked for.
   */
  lemma RequestedLinesBounds(lineNo: int)
    ensures |RequestedLines(lineNo)| <= 2 * Radius + 1
    ensures forall k :: 0 <= k < |RequestedLines(lineNo)| ==>
      var n := RequestedLines(lineNo)[k];
      1 <= n && lineNo - Radius <= n <= lineNo + Radius
    ensures forall j, k :: 0 <= j < k < |RequestedLines(lineNo)| ==>
      RequestedLines(lineNo)[j] < RequestedLines(lineNo)[k]
    ensures lineNo >= 1 ==> lineNo in RequestedLines(lineNo)
  {
    RangeFacts(First(lineNo), Last(lineNo) + 1);
    if lineNo >= 1 {
      assert RequestedLines(lineNo)[lineNo - First(lineNo)] == lineNo;
    }
  }

  /** The entry for line `n`, if that line resolves to non-empty text. */
  function EntryAt(lines: seq<string>, lineNo: int, n: nat): seq<SourceLine>
  {
    var line := GetLine(lines, n);
    if line != "" then [SourceLine(n == lineNo, n, TrimEnd(line))] else []
  }

  /** The entries for the lines `lo .. hi - 1`, in line order. */
  function Entries(lines: seq<string>, lineNo: int, lo: nat, hi: int): seq<SourceLine>
    decreases hi - lo
  {
    if hi <= lo then [] else Entries(lines, lineNo, lo, hi - 1) + EntryAt(lines, lineNo, hi - 1)
  }

  /** The entries of the window around `lineNo` when the source reads without failure. */
  function Window(lines: seq<string>, lineNo: int): seq<SourceLine>
  {
    Entries(lines, lineNo, First(lineNo), Last(lineNo) + 1)
  }

  /** At most one entry per line of the range. */
  lemma {:induction false} EntriesLength(lines: seq<string>, lineNo: int, lo: nat, hi: int)
    ensures |Entries(lines, lineNo, lo, hi)| <= if hi <= lo then 0 else hi - lo
    decreases hi - lo
  {
    if lo < hi {
      EntriesLength(lines, lineNo, lo, hi - 1);
    }
  }

  /**
    Each entry is for a line in range that resolves to non-empty text, carries
    that text right-stripped, and is marked current exactly when it is the
    current line.
   */
  predicate Sound(lines: seq<string>, lineNo: int, lo: int, hi: int, e: SourceLine)
  {
    && lo <= e.lineNo < hi
    && GetLine(lines, e.lineNo) != ""
    && e.text == TrimEnd(GetLine(lines, e.lineNo))
    && (e.current <==> e.lineNo == lineNo)
  }

  lemma {:induction false} EntriesSound(lines: seq<string>, lineNo: int, lo: nat, hi: int)
    ensures forall k :: 0 <= k < |Entries(lines, lineNo, lo, hi)| ==>
      Sound(lines, lineNo, lo, hi, Entries(lines, lineNo, lo, hi)[k])
    decreases hi - lo
  {
    if lo < hi {
      EntriesSound(lines, lineNo, lo, hi - 1);
      var init := Entries(lines, lineNo, lo, hi - 1);
      var w := Entries(lines, lineNo, lo, hi);
      assert w == init + EntryAt(lines, lineNo, hi - 1);
      forall k | 0 <= k < |w| ensures Sound(lines, lineNo, lo, hi, w[k]) {
        if k < |init| {
          assert w[k] == init[k];
          assert Sound(lines, lineNo, lo, hi - 1, init[k]);
        }
      }
    }
  }

  /** The entries come in strictly ascending line order. */
  lemma {:induction false} EntriesSorted(lines: seq<string>, lineNo: int, lo: nat, hi: int)
    ensures forall j, k :: 0 <= j < k < |Entries(lines, lineNo, lo, hi)| ==>
      Entries(lines, lineNo, lo, hi)[j].lineNo < Entries(lines, lineNo, lo, hi)[k].lineNo
    decreases hi - lo
  {
    if lo < hi {
      EntriesSorted(lines, lineNo, lo, hi - 1);
      EntriesSound(lines, lineNo, lo, hi - 1);
      var init := Entries(lines, lineNo, lo, hi - 1);
      var w := Entries(lines, lineNo, lo, hi);
      assert w == init + EntryAt(lines, lineNo, hi - 1);
      forall j, k | 0 <= j < k < |w| ensures w[j].lineNo < w[k].lineNo {
        assert w[j] == init[j];
        if k < |init| {
          assert w[k] == init[k];
        } else {
          assert Sound(lines, lineNo, lo, hi - 1, init[j]);
        }
      }
    }
  }

  /** Every line in range that resolves has an entry. */
  lemma {:induction false} EntriesComplete(lines: seq<string>, lineNo: int, lo: nat, hi: int, n: int)
    requires lo <= n < hi && GetLine(lines, n) != ""
    ensures exists k :: 0 <= k < |Entries(lines, lineNo, lo, hi)| && Entries(lines, lineNo, lo, hi)[k].lineNo == n
    decreases hi - lo
  {
    var init := Entries(lines, lineNo, lo, hi - 1);
    var w := Entries(lines, lineNo, lo, hi);
    assert w == init + EntryAt(lines, lineNo, hi - 1);
    if n < hi - 1 {
      EntriesComplete(lines, lineNo, lo, hi - 1, n);
      var k :| 0 <= k < |init| && init[k].lineNo == n;
      assert w[k] == init[k];
    } else {
      assert w[|init|].lineNo == n;
    }
  }

  /**
    The window around `lineNo`: at most eleven entries, all for line numbers
    from `max(1, lineNo - 5)` to `lineNo + 5` that resolve, in ascending order,
    at most one of them current, and the current line among them exactly when
    it resolves.
   */
  lemma WindowFacts(lines: seq<string>, lineNo: int)
    ensures |Window(lines, lineNo)| <= 2 * Radius + 1
    ensures forall k :: 0 <= k < |Window(lines, lineNo)| ==>
      && Sound(lines, lineNo, First(lineNo), Last(lineNo) + 1, Window(lines, lineNo)[k])
      && 1 <= Window(lines, lineNo)[k].lineNo
      && lineNo - Radius <= Window(lines, lineNo)[k].lineNo <= lineNo + Radius
    ensures forall j, k :: 0 <= j < k < |Window(lines, lineNo)| ==>
      Window(lines, lineNo)[j].lineNo < Window(lines, lineNo)[k].lineNo
    ensures forall j, k ::
      (0 <= j < |Window(lines, lineNo)| && 0 <= k < |Window(lines, lineNo)| &&
       Window(lines, lineNo)[j].current && Window(lines, lineNo)[k].current) ==> j == k
    ensures (exists k :: 0 <= k < |Window(lines, lineNo)| && Window(lines, lineNo)[k].current) <==>
      (lineNo >= 1 && GetLine(lines, lineNo) != "")
  {
    var lo, hi := First(lineNo), Last(lineNo) + 1;
    EntriesLength(lines, lineNo, lo, hi);
    EntriesSound(lines, lineNo, lo, hi);
    EntriesSorted(lines, lineNo, lo, hi);
    var w := Window(lines, lineNo);
    if lineNo >= 1 && GetLine(lines, lineNo) != "" {
      EntriesComplete(lines, lineNo, lo, hi, lineNo);
      var k :| 0 <= k < |w| && w[k].lineNo == lineNo;
      assert Sound(lines, lineNo, lo, hi, w[k]);
    }
    forall j, k | 0 <= j < |w| && 0 <= k < |w| && w[j].current && w[k].current ensures j == k {
      assert Sound(lines, lineNo, lo, hi, w[j]) && Sound(lines, lineNo, lo, hi, w[k]);
    }
  }

  /** Every line of the window's range that resolves to non-empty text is in the window. */
  lemma WindowComplete(lines: seq<string>, lineNo: int)
    ensures forall n :: First(lineNo) <= n <= Last(lineNo) && GetLine(lines, n) != "" ==>
      exists k :: 0 <= k < |Window(lines, lineNo)| && Window(lines, lineNo)[k].lineNo == n
  {
    forall n | First(lineNo) <= n <= Last(lineNo) && GetLine(lines, n) != ""
      ensures exists k :: 0 <= k < |Window(lines, lineNo)| && Window(lines, lineNo)[k].lineNo == n
    {
      var w := Entries(lines, lineNo, First(lineNo), Last(lineNo) + 1);
      assert w == Window(lines, lineNo);
      EntriesComplete(lines, lineNo, First(lineNo), Last(lineNo) + 1, n);
      var k :| 0 <= k < |w| && w[k].lineNo == n;
    }
  }

  /** `"--> "` for the current line, four spaces for any other. */
  function Marker(current: bool): string
  {
    if current then CurrentMarker else OtherMarker
  }

  /** `f"{prefix}{i}: {line.rstrip()}"`. */
  function Format(e: SourceLine): string
  {
    Marker(e.current) + NatToString(e.lineNo) + ": " + e.text
  }

  /** Reads a window entry back: its marker, its line number and its text. */
  function ParseEntry(s: string): Option<SourceLine>
  {
    if |s| < 4 || (s[..4] != CurrentMarker && s[..4] != OtherMarker) then None
    else
      var rest := s[4..];
      var k := DigitRun(rest);
      if k == 0 || |rest| < k + 2 || rest[k..k + 2] != ": " then None
      else Some(SourceLine(s[..4] == CurrentMarker, ParseNat(rest[..k]), rest[k + 2..]))
  }

  /**
    Every rendered entry can be read back: the marker tells whether it is the
    current line, and the number and the text come back unchanged.
   */
  lemma ParseFormat(e: SourceLine)
    ensures ParseEntry(Format(e)) == Some(e)
  {
    var m := Marker(e.current);
    var ds := NatToString(e.lineNo);
    var tail := ": " + e.text;
    var rest := ds + tail;
    var s := m + rest;
    assert Format(e) == s;
    assert |m| == 4;
    assert s[..4] == m;
    assert s[4..] == rest;
    DigitRunOfDigits(ds, tail);
    assert rest[..|ds|] == ds;
    assert rest[|ds|..] == tail;
    assert rest[|ds|..|ds| + 2] == tail[..2] == ": ";
    assert rest[|ds| + 2..] == tail[2..] == e.text;
    ParseNatToString(e.lineNo);
  }

  /** A rendered entry starts with the arrow exactly when it is the current line. */
  lemma FormatMarksCurrent(e: SourceLine)
    ensures |Format(e)| >= 4
    ensures Format(e)[..4] == CurrentMarker <==> e.current
  {
    assert Format(e)[..4] == Marker(e.current);
  }

  /** Each entry of a window, rendered. */
  function Rendered(w: seq<SourceLine>): (r: seq<string>)
    ensures |r| == |w|
  {
    seq(|w|, k requires 0 <= k < |w| => Format(w[k]))
  }

  /** `f"<Source not available for {filename}>"`. */
  function Placeholder(fileName: string): string
  {
    "<Source not available for " + fileName + ">"
  }

  /** Whether reading the source raises before the window is complete. */
  predicate Faulted(src: LineSource, lineNo: int)
  {
    src.failure.CheckCacheRaises? || LineFaulted(src, lineNo)
  }

  /** The snippet lines the window builder produces. */
  function Snippet(src: LineSource, fileName: string, lineNo: int): seq<string>
  {
    if Faulted(src, lineNo) then [Placeholder(fileName)] else Rendered(Window(src.lines, lineNo))
  }

  /** Whether reading one of the window's lines raises. */
  predicate LineFaulted(src: LineSource, lineNo: int)
  {
    src.failure.GetLineRaises? && First(lineNo) <= src.failure.lineNo <= Last(lineNo)
  }

  /**
    The loop of the window builder: asks the line cache for each line of the
    window in turn and appends the numbered, marked line when it resolves.
    `raised` tells that reading a line raised, which stops the loop; otherwise
    the lines gathered are the renderings of every line of the window.
   */
  method ReadWindow(src: LineSource, lineNo: int)
    returns (snippet: seq<string>, raised: bool)
    ensures raised == LineFaulted(src, lineNo)
    ensures !raised ==> snippet == RenderedLines(src.lines, lineNo, First(lineNo), Last(lineNo) + 1)
  {
    snippet, raised := [], false;
    var start := First(lineNo);
    var end := Last(lineNo);
    var i := start;
    while i <= end
      invariant start <= i && (i <= end + 1 || i == start)
      invariant snippet == RenderedLines(src.lines, lineNo, start, i)
      invariant !(src.failure.GetLineRaises? && start <= src.failure.lineNo < i)
      decreases end - i
    {
      if src.failure == GetLineRaises(i) {
        raised := true;
        return;
      }
      var line := GetLine(src.lines, i);
      if line != "" {
        snippet := snippet + [Format(SourceLine(i == lineNo, i, TrimEnd(line)))];
      }
      i := i + 1;
    }
    assert i == end + 1 || end + 1 < start;
  }

  /**
    The window builder (the source-code step of `_capture_safe_context`):
    when checking the cache or reading a line raises, whatever was gathered
    is replaced by the single placeholder line.
   */
  method BuildSnippet(src: LineSource, fileName: string, lineNo: int)
    returns (snippet: seq<string>)
    ensures snippet == Snippet(src, fileName, lineNo)
  {
    if src.failure.CheckCacheRaises? {
      return [Placeholder(fileName)];
    }
    var raised;
    snippet, raised := ReadWindow(src, lineNo);
    if raised {
      snippet := [Placeholder(fileName)];
    } else {
      RenderedLinesEntries(src.lines, lineNo, First(lineNo), Last(lineNo) + 1);
    }
  }

  lemma RenderedAppend(w: seq<SourceLine>, e: SourceLine)
    ensures Rendered(w + [e]) == Rendered(w) + [Format(e)]
  {
  }

  /** The rendering of line `n` when it resolves, and nothing otherwise. */
  function RenderedLine(lines: seq<string>, lineNo: int, n: nat): seq<string>
  {
    var line := GetLine(lines, n);
    if line != "" then [Format(SourceLine(n == lineNo, n, TrimEnd(line)))] else []
  }

  /** The renderings of the lines `lo .. hi - 1`, in line order. */
  function RenderedLines(lines: seq<string>, lineNo: int, lo: nat, hi: int): seq<string>
    decreases hi - lo
  {
    if hi <= lo then [] else RenderedLines(lines, lineNo, lo, hi - 1) + RenderedLine(lines, lineNo, hi - 1)
  }

  /** Rendering line by line is rendering the entries. */
  lemma {:induction false} RenderedLinesEntries(lines: seq<string>, lineNo: int, lo: nat, hi: int)
    ensures RenderedLines(lines, lineNo, lo, hi) == Rendered(Entries(lines, lineNo, lo, hi))
    decreases hi - lo
  {
    if hi > lo {
      RenderedLinesEntries(lines, lineNo, lo, hi - 1);
      var done := Entries(lines, lineNo, lo, hi - 1);
      var n := hi - 1;
      assert Entries(lines, lineNo, lo, hi) == done + EntryAt(lines, lineNo, n);
      if GetLine(lines, n) != "" {
        RenderedAppend(done, SourceLine(n == lineNo, n, TrimEnd(GetLine(lines, n))));
      } else {
        assert done + EntryAt(lines, lineNo, n) == done;
      }
    }
  }

  /**
    A window rendered from well-formed cache lines (each holding a newline at
    most as its last character) joins into text that splits back into exactly
    its entries; a placeholder for a file name without a newline is one line.
   */
  lemma SnippetLines(src: LineSource, fileName: string, lineNo: int)
    requires forall n :: 0 <= n < |src.lines| ==> NoNewline(TrimEnd(src.lines[n]))
    requires NoNewline(fileName)
    requires Snippet(src, fileName, lineNo) != []
    ensures SplitLines(JoinLines(Snippet(src, fileName, lineNo))) == Snippet(src, fileName, lineNo)
  {
    var s := Snippet(src, fileName, lineNo);
    if Faulted(src, lineNo) {
      assert NoNewline(Placeholder(fileName));
    } else {
      var w := Window(src.lines, lineNo);
      EntriesSound(src.lines, lineNo, First(lineNo), Last(lineNo) + 1);
      forall k | 0 <= k < |s| ensures NoNewline(s[k]) {
        var e := w[k];
        assert Sound(src.lines, lineNo, First(lineNo), Last(lineNo) + 1, e);
        assert NoNewline(TrimEnd(src.lines[e.lineNo - 1]));
        FormatNoNewline(e);
      }
    }
    SplitJoinLines(s);
  }

  /** A rendered entry whose text holds no newline holds none either. */
  lemma FormatNoNewline(e: SourceLine)
    requires NoNewline(e.text)
    ensures NoNewline(Format(e))
  {
    var ds := NatToString(e.lineNo);
    assert NoNewline(Marker(e.current));
    assert NoNewline(ds);
    assert NoNewline(": ");
    var f := Marker(e.current) + ds + ": " + e.text;
    forall i | 0 <= i < |f| ensures f[i] != '\n' {
      var m := |Marker(e.current)|;
      if i < m {
        assert f[i] == Marker(e.current)[i];
      } else if i < m + |ds| {
        assert f[i] == ds[i - m];
      } else if i < m + |ds| + 2 {
        assert f[i] == ": "[i - m - |ds|];
      } else {
        assert f[i] == e.text[i - m - |ds| - 2];
      }
    }
  }
}
