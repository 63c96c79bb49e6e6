/** The `depends` file of a service: one dependency a line, `?` before a soft one. */
module Depends {
  import opened Types
  import opened Numbers
  import opened Paths
  import opened TextLines

  const DEP_FILE_BUF: nat := 512
  const BLANK: set<Byte> := {' '}
  const GAPS: set<Byte> := {' ', '\t'}

  /** A line without the blanks around it. */
  function Clean(line: Text): Text {
    TrimmedEnd(TrimmedStart(line, BLANK), GAPS)
  }

  /** What a line that is not blank stands for. */
  function AsDependency(clean: Text): Dependency
    requires clean != []
  {
    if clean[0] == '?' then Dependency(Take(clean[1..], NAME_BUF - 1), true)
    else Dependency(Take(clean, NAME_BUF - 1), false)
  }

  function OfLine(line: Text): seq<Dependency> {
    if Clean(line) == [] then [] else [AsDependency(Clean(line))]
  }

  /** The meaning of the file: of its lines, trimmed and not blank, the first sixteen. */
  function Meaning(data: Text): (deps: seq<Dependency>)
    ensures |deps| <= MAX_DEPENDENCIES
  {
    var all := Gathered(OfLine, Lines(data));
    if |all| <= MAX_DEPENDENCIES then all else all[..MAX_DEPENDENCIES]
  }

  lemma EmptyLine()
    ensures OfLine([]) == []
  {
  }

  /** One line of the file: trimmed at both ends, then classified. */
  method ParseLine(data: Text, start: nat, end: nat) returns (deps: seq<Dependency>)
    requires start <= end <= |data|
    ensures deps == OfLine(data[start..end])
  {
    hide TrimmedStart, TrimmedEnd;
    var l := TrimLeft(data, start, end, BLANK);
    var r := TrimRight(data, l, end, GAPS);
    var clean := data[l..r];
    deps := [];
    if clean != [] {
      var soft := clean[0] == '?';
      var name := if soft then clean[1..] else clean;
      deps := [Dependency(Take(name, NAME_BUF - 1), soft)];
    }
  }

  /** The parser of `add_service`. */
  method ParseDepends(data: Text) returns (deps: seq<Dependency>)
    ensures deps == Meaning(data)
  {
    hide Gathered, OfLine, Lines, Until;
    deps := [];
    var start := 0;
    EmptyLine();
    WholeFile(OfLine, data);
    while start < |data| && |deps| < MAX_DEPENDENCIES
      invariant 0 <= start && |deps| <= MAX_DEPENDENCIES
      invariant Gathered(OfLine, Lines(data)) == deps + From(OfLine, data, start)
      decreases |data| - start
    {
      var end := FindBreak(data, start);
      var more := ParseLine(data, start, end);
      AtMostOne(data[start..end]);
      var next := SkipBreaks(data, end + 1);
      NextLine(OfLine, data, start, end, next);
      assert deps + (more + From(OfLine, data, next)) == deps + more + From(OfLine, data, next);
      deps := deps + more;
      start := next;
    }
  }

  lemma AtMostOne(line: Text)
    ensures |OfLine(line)| <= 1
  {
  }

  // ---------------------------------------------------------------- round trip

  function Line(d: Dependency): Text {
    if d.soft then "?" + d.name else d.name
  }

  /** The file that lists `ds`, each line ended by `end`. */
  function Print(ds: seq<Dependency>, end: Text): Text {
    if ds == [] then [] else Line(ds[0]) + end + Print(ds[1..], end)
  }

  /** The name fits its buffer, no blank is at either end of the line, and a hard name does not look soft. */
  predicate Clear(d: Dependency) {
    && |d.name| < 64 && Line(d) != []
    && Line(d)[0] != ' ' && Line(d)[|Line(d)| - 1] != ' ' && Line(d)[|Line(d)| - 1] != '\t'
    && (!d.soft ==> d.name[0] != '?')
  }

  predicate NoBreak(b: Text) {
    '\n' !in b && '\r' !in b
  }

  lemma CleanIfNoBlanks(line: Text)
    requires line != [] && line[0] != ' ' && line[|line| - 1] !in GAPS
    ensures Clean(line) == line
  {
    hide TrimmedStart, TrimmedEnd;
    TrimmedStartUnique(line, BLANK, 0);
    TrimmedEndUnique(line, GAPS, |line|);
    assert line[0..] == line && line[..|line|] == line;
  }

  lemma NoBlanksIfClean(line: Text)
    requires Clean(line) == line && line != []
    ensures line[0] != ' ' && line[|line| - 1] !in GAPS
  {
    hide TrimmedStart, TrimmedEnd;
    var t := TrimmedStart(line, BLANK);
    assert |t| == |line|;
    WholeKept(line, t, line);
  }

  lemma CleanLength(line: Text)
    ensures |Clean(line)| <= |line| && (|Clean(line)| == |line| ==> Clean(line) == line)
  {
    hide TrimmedStart, TrimmedEnd;
    WholeKept(line, TrimmedStart(line, BLANK), Clean(line));
  }

  lemma CleanKept(line: Text)
    requires line != []
    ensures Clean(line) == line <==> line[0] != ' ' && line[|line| - 1] !in GAPS
  {
    hide Clean;
    if line[0] != ' ' && line[|line| - 1] !in GAPS {
      CleanIfNoBlanks(line);
    }
    if Clean(line) == line {
      NoBlanksIfClean(line);
    }
  }

  lemma WholeKept(line: Text, t: Text, c: Text)
    requires |t| <= |line| && t == line[|line| - |t|..] && |c| <= |t| && c == t[..|c|]
    ensures |c| == |line| ==> c == line
  {
  }

  lemma ClearIff(d: Dependency)
    ensures Clear(d) <==>
              && Line(d) != [] && Clean(Line(d)) == Line(d)
              && |d.name| < NAME_BUF && (!d.soft ==> d.name[0] != '?')
  {
    hide Clean;
    if Line(d) != [] {
      CleanKept(Line(d));
    }
  }

  /** The line of a dependency is read back as that dependency exactly when it is clear. */
  lemma LineRoundTrip(d: Dependency)
    ensures OfLine(Line(d)) == [d] <==> Clear(d)
  {
    hide Clean, Clear, Line, AsDependency;
    CleanLength(Line(d));
    ClearIff(d);
    Classified(d, Clean(Line(d)));
  }

  predicate Padding(front: Text, back: Text) {
    && (forall j :: 0 <= j < |front| ==> front[j] == ' ')
    && (forall j :: 0 <= j < |back| ==> back[j] == ' ' || back[j] == '\t')
  }

  lemma CleanPadded(front: Text, line: Text, back: Text)
    requires Padding(front, back) && line != [] && line[0] != ' ' && line[|line| - 1] !in GAPS
    ensures Clean(front + line + back) == line
  {
    hide TrimmedStart, TrimmedEnd;
    var rest := line + back;
    var all := front + rest;
    assert front + line + back == all;
    assert TrimmedStart(all, BLANK) == rest by {
      assert all[|front|] == line[0] && all[|front|..] == rest;
      TrimmedStartUnique(all, BLANK, |front|);
    }
    assert rest[|line| - 1] == line[|line| - 1] && rest[..|line|] == line;
    TrimmedEndUnique(rest, GAPS, |line|);
  }

  lemma CleanBlank(front: Text)
    requires Padding(front, [])
    ensures Clean(front) == []
  {
    hide TrimmedStart, TrimmedEnd;
    TrimmedStartUnique(front, BLANK, |front|);
    assert front[|front|..] == [];
    TrimmedEndUnique([], GAPS, 0);
  }

  /** Spaces before a dependency, and spaces and tabs behind it, change nothing; alone they stand for nothing. */
  lemma PaddedLine(front: Text, d: Dependency, back: Text)
    requires Padding(front, back) && Clear(d)
    ensures OfLine(front + Line(d) + back) == [d] && OfLine(front) == []
  {
    hide Clean;
    CleanPadded(front, Line(d), back);
    CleanBlank(front);
    LineRoundTrip(d);
    CleanIfNoBlanks(Line(d));
  }

  /** A cleaned line no longer than that of `d` stands for `d` exactly when it is that line and the name fits. */
  lemma Classified(d: Dependency, c: Text)
    requires |c| <= |Line(d)| && (|c| == |Line(d)| ==> c == Line(d))
    ensures c != [] && AsDependency(c) == d <==>
            c != [] && c == Line(d) && |d.name| < NAME_BUF && (!d.soft ==> d.name[0] != '?')
  {
    assert d.soft ==> Line(d)[1..] == d.name;
  }

  lemma {:induction false} LinesRoundTrip(ds: seq<Dependency>, end: Text)
    requires (forall k :: 0 <= k < |ds| ==> Clear(ds[k]) && NoBreak(ds[k].name)) && IsEnding(end)
    ensures Gathered(OfLine, Lines(Print(ds, end))) == ds
    decreases |ds|
  {
    hide Gathered, OfLine, Lines, Until, Clear;
    EmptyLine();
    if ds == [] {
      NoLines(OfLine);
    } else {
      LineRoundTrip(ds[0]);
      EndedLine(OfLine, Line(ds[0]), end, Print(ds[1..], end));
      LinesRoundTrip(ds[1..], end);
    }
  }

  /**
   Parsing undoes printing for every list of clear dependencies that fits the read buffer, whichever line ends the
   file has; of more than sixteen the first sixteen are kept.
   */
  lemma ParseUndoesPrint(ds: seq<Dependency>, end: Text)
    requires (forall k :: 0 <= k < |ds| ==> Clear(ds[k]) && NoBreak(ds[k].name)) && IsEnding(end)
    requires |Print(ds, end)| <= 512
    ensures Meaning(Take(Print(ds, end), DEP_FILE_BUF)) == if |ds| <= 16 then ds else ds[..16]
  {
    hide Gathered, Lines, Clear;
    LinesRoundTrip(ds, end);
  }
}
