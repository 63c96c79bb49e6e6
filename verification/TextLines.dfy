/** Cutting text into lines and trimming them, shared by the parsers of the service directory. */
module TextLines {
  import opened Types
  import opened Numbers

  const BREAKS: set<Byte> := {'\n', '\r'}

  /** The length of the longest prefix without a character of `stop`. */
  function Until(b: Text, stop: set<Byte>): (k: nat)
    ensures k <= |b| && (forall j :: 0 <= j < k ==> b[j] !in stop) && (k < |b| ==> b[k] in stop)
  {
    if b == [] || b[0] in stop then 0 else 1 + Until(b[1..], stop)
  }

  lemma UntilUnique(b: Text, stop: set<Byte>, k: nat)
    requires k <= |b| && (forall j :: 0 <= j < k ==> b[j] !in stop) && (k < |b| ==> b[k] in stop)
    ensures k == Until(b, stop)
  {
  }

  /** The scan for the end of a line that starts at `from`. */
  method FindBreak(data: Text, from: nat) returns (end: nat)
    requires from <= |data|
    ensures from <= end <= |data| && end - from == Until(data[from..], BREAKS)
  {
    end := from;
    while end < |data| && data[end] !in BREAKS
      invariant from <= end <= |data|
      invariant forall j :: from <= j < end ==> data[j] !in BREAKS
    {
      end := end + 1;
    }
    UntilUnique(data[from..], BREAKS, end - from);
  }

  function Lines(b: Text): (ls: seq<Text>)
    ensures ls != []
  {
    var k := Until(b, BREAKS);
    if k == |b| then [b] else [b[..k]] + Lines(b[k + 1..])
  }

  function TrimmedStart(b: Text, drop: set<Byte>): (r: Text)
    ensures |r| <= |b| && r == b[|b| - |r|..]
    ensures r != [] ==> r[0] !in drop
    ensures forall j :: 0 <= j < |b| - |r| ==> b[j] in drop
  {
    if b != [] && b[0] in drop then TrimmedStart(b[1..], drop) else b
  }

  lemma {:induction false} TrimmedStartUnique(b: Text, drop: set<Byte>, k: nat)
    requires k <= |b| && (forall j :: 0 <= j < k ==> b[j] in drop) && (k < |b| ==> b[k] !in drop)
    ensures TrimmedStart(b, drop) == b[k..]
  {
    if k == 0 {
      assert b[0..] == b;
    } else {
      TrimmedStartUnique(b[1..], drop, k - 1);
      assert b[1..][k - 1..] == b[k..];
    }
  }

  lemma {:induction false} TrimmedEndUnique(b: Text, drop: set<Byte>, k: nat)
    requires k <= |b| && (forall j :: k <= j < |b| ==> b[j] in drop) && (k > 0 ==> b[k - 1] !in drop)
    ensures TrimmedEnd(b, drop) == b[..k]
  {
    if k == |b| {
      assert b[..k] == b;
    } else {
      TrimmedEndUnique(b[..|b| - 1], drop, k);
      assert b[..|b| - 1][..k] == b[..k];
    }
  }

  /** The scan that skips characters of `drop` at the start of `data[lo..hi]`. */
  method TrimLeft(data: Text, lo: nat, hi: nat, drop: set<Byte>) returns (l: nat)
    requires lo <= hi <= |data|
    ensures lo <= l <= hi && data[l..hi] == TrimmedStart(data[lo..hi], drop)
  {
    l := lo;
    ghost var line := data[lo..hi];
    while l < hi && data[l] in drop
      invariant lo <= l <= hi && forall j :: 0 <= j < l - lo ==> line[j] in drop
    {
      l := l + 1;
    }
    assert l < hi ==> line[l - lo] !in drop;
    TrimmedStartUnique(line, drop, l - lo);
    assert line[l - lo..] == data[l..hi];
  }

  /** The scan that drops characters of `drop` at the end of `data[lo..hi]`. */
  method TrimRight(data: Text, lo: nat, hi: nat, drop: set<Byte>) returns (r: nat)
    requires lo <= hi <= |data|
    ensures lo <= r <= hi && data[lo..r] == TrimmedEnd(data[lo..hi], drop)
  {
    r := hi;
    while r > lo && data[r - 1] in drop
      invariant lo <= r <= hi && forall j :: r <= j < hi ==> data[j] in drop
    {
      r := r - 1;
    }
    TrimmedEndUnique(data[lo..hi], drop, r - lo);
    assert data[lo..hi][..r - lo] == data[lo..r];
  }

  /** The scan that skips further line ends. */
  method SkipBreaks(data: Text, from: nat) returns (next: nat)
    ensures next == from || (from < next <= |data| && forall j :: from <= j < next ==> data[j] in BREAKS)
    ensures next < |data| ==> data[next] !in BREAKS
  {
    next := from;
    while next < |data| && data[next] in BREAKS
      invariant next == from || (from < next <= |data| && forall j :: from <= j < next ==> data[j] in BREAKS)
    {
      next := next + 1;
    }
  }

  // ---------------------------------------------------------------- files read line by line

  /** What each line stands for, all lines in order. */
  function Gathered<T>(f: Text -> seq<T>, lines: seq<Text>): seq<T> {
    if lines == [] then [] else f(lines[0]) + Gathered(f, lines[1..])
  }

  lemma OneLineMore<T>(f: Text -> seq<T>, line: Text, lines: seq<Text>)
    ensures Gathered(f, [line] + lines) == f(line) + Gathered(f, lines)
  {
    assert ([line] + lines)[1..] == lines;
  }

  lemma FirstLine<T>(f: Text -> seq<T>, data: Text)
    ensures var k := Until(data, BREAKS);
            Gathered(f, Lines(data)) == f(data[..k]) + if k < |data| then Gathered(f, Lines(data[k + 1..])) else []
  {
    hide Until;
    var k := Until(data, BREAKS);
    if k == |data| {
      assert data[..k] == data && [data] == [data] + [];
      OneLineMore(f, data, []);
    } else {
      OneLineMore(f, data[..k], Lines(data[k + 1..]));
    }
  }

  /** Line ends at the start of a file add nothing when an empty line stands for nothing. */
  lemma {:induction false} BlankLines<T>(f: Text -> seq<T>, data: Text, k: nat)
    requires f([]) == [] && k <= |data| && forall j :: 0 <= j < k ==> data[j] in BREAKS
    ensures Gathered(f, Lines(data)) == Gathered(f, Lines(data[k..]))
  {
    hide Gathered, Lines, Until;
    if k == 0 {
      assert data[0..] == data;
    } else {
      FirstLine(f, data);
      UntilUnique(data, BREAKS, 0);
      assert data[..0] == [];
      BlankLines(f, data[1..], k - 1);
      assert data[1..][k - 1..] == data[k..];
    }
  }

  lemma NoLines<T>(f: Text -> seq<T>)
    requires f([]) == []
    ensures Gathered(f, Lines([])) == []
  {
    FirstLine(f, []);
  }

  /** A line is ended by a line feed, a carriage return, or both. */
  predicate IsEnding(end: Text) {
    end == "\n" || end == "\r" || end == "\r\n"
  }

  /** A line and its ending come off the file. */
  lemma EndedLine<T>(f: Text -> seq<T>, line: Text, end: Text, rest: Text)
    requires f([]) == [] && IsEnding(end) && forall j :: 0 <= j < |line| ==> line[j] !in BREAKS
    ensures Gathered(f, Lines(line + end + rest)) == f(line) + Gathered(f, Lines(rest))
  {
    hide Gathered, Lines, Until;
    var data := line + end + rest;
    assert forall j :: 0 <= j < |line| ==> data[j] == line[j];
    assert data[|line|] == end[0] && data[..|line|] == line;
    UntilUnique(data, BREAKS, |line|);
    FirstLine(f, data);
    if |end| == 1 {
      assert data[|line| + 1..] == rest;
    } else {
      var more := data[|line| + 1..];
      assert more[0] == '\n' && more[1..] == rest;
      BlankLines(f, more, 1);
    }
  }

  /** What the part of the file that begins at `start` stands for. */
  function From<T>(f: Text -> seq<T>, data: Text, start: nat): seq<T> {
    if start < |data| then Gathered(f, Lines(data[start..])) else []
  }

  lemma WholeFile<T>(f: Text -> seq<T>, data: Text)
    requires f([]) == []
    ensures Gathered(f, Lines(data)) == From(f, data, 0)
  {
    assert data[0..] == data;
    if data == [] {
      NoLines(f);
    }
  }

  /** After the line that ends at `end` a parser goes on at `next`, past all the line ends there. */
  lemma NextLine<T>(f: Text -> seq<T>, data: Text, start: nat, end: nat, next: nat)
    requires f([]) == []
    requires start <= end <= |data| && end - start == Until(data[start..], BREAKS) && start < |data|
    requires next == end + 1 || (end + 1 < next <= |data| && forall j :: end + 1 <= j < next ==> data[j] in BREAKS)
    ensures From(f, data, start) == f(data[start..end]) + From(f, data, next)
  {
    hide Gathered, Lines, Until;
    FirstLine(f, data[start..]);
    assert data[start..][..end - start] == data[start..end];
    if end < |data| {
      assert data[start..][end - start + 1..] == data[end + 1..];
      SkippedLines(f, data, end + 1, next);
    }
  }

  lemma SkippedLines<T>(f: Text -> seq<T>, data: Text, from: nat, next: nat)
    requires f([]) == []
    requires from <= |data|
    requires next == from || (from < next <= |data| && forall j :: from <= j < next ==> data[j] in BREAKS)
    ensures Gathered(f, Lines(data[from..])) == From(f, data, next)
  {
    hide Gathered, Lines;
    var rest := data[from..];
    BlankLines(f, rest, next - from);
    assert rest[next - from..] == data[next..];
    if next == |data| {
      NoLines(f);
    }
  }
}
