/** The `env` file of a service, packed into a fixed buffer with a table of offsets. */
module Environments {
  import opened Types
  import opened Numbers
  import opened TextLines

  const ENV_BUF: nat := 4096
  const MAX_ENV_VARS: nat := 64
  const GAPS: set<Byte> := {' ', '\t'}

  function Stripped(line: Text): (t: Text)
    ensures |t| <= |line|
  {
    TrimmedEnd(TrimmedStart(line, GAPS), GAPS)
  }

  /** Not a comment, and a name that is not empty before the first `=`. */
  predicate Assigns(t: Text) {
    t != [] && t[0] != '#' && 0 < Until(t, {'='}) < |t|
  }

  function OfLine(line: Text): seq<Text> {
    if Assigns(Stripped(line)) then [Stripped(line)] else []
  }

  /** The variables of a file, in order. */
  function Vars(data: Text): seq<Text> {
    Gathered(OfLine, Lines(data))
  }

  /** The bytes that strings take up with their terminators. */
  function Size(vs: seq<Text>): nat {
    if vs == [] then 0 else Size(vs[..|vs| - 1]) + |vs[|vs| - 1]| + 1
  }

  /** The strings back to back, each terminated. */
  function Image(vs: seq<Text>): (b: Text)
    ensures |b| == Size(vs)
  {
    if vs == [] then [] else Image(vs[..|vs| - 1]) + vs[|vs| - 1] + "\0"
  }

  function FirstVars(data: Text): (vs: seq<Text>)
    ensures |vs| <= MAX_ENV_VARS
  {
    if |Vars(data)| <= MAX_ENV_VARS then Vars(data) else Vars(data)[..MAX_ENV_VARS]
  }

  /** What is kept: the first 64 variables, without the last of them if together they exceed the buffer. */
  function Kept(data: Text): seq<Text> {
    var vs := FirstVars(data);
    if Size(vs) <= ENV_BUF then vs else vs[..|vs| - 1]
  }

  // ---------------------------------------------------------------- line by line

  lemma SizeMore(vs: seq<Text>, v: Text)
    ensures Size(vs + [v]) == Size(vs) + |v| + 1
    ensures Image(vs + [v]) == Image(vs) + v + "\0"
  {
    assert (vs + [v])[..|vs|] == vs;
  }

  lemma {:induction false} SizeConcat(a: seq<Text>, b: seq<Text>)
    ensures Size(a + b) == Size(a) + Size(b)
    decreases |b|
  {
    if b == [] {
      assert a + b == a;
    } else {
      SizeConcat(a, b[..|b| - 1]);
      assert a + b == a + b[..|b| - 1] + [b[|b| - 1]];
      SizeMore(a + b[..|b| - 1], b[|b| - 1]);
      assert b == b[..|b| - 1] + [b[|b| - 1]];
    }
  }

  lemma LineOfVars(data: Text)
    ensures var k := Until(data, BREAKS);
            Vars(data) == OfLine(data[..k]) + if k < |data| then Vars(data[k + 1..]) else []
  {
    hide OfLine, Until, Gathered, Lines;
    FirstLine(OfLine, data);
  }

  lemma EmptyLine()
    ensures OfLine([]) == []
  {
  }

  // ---------------------------------------------------------------- round trip

  /** What a line can hold: an assignment, a comment, a value without a name, or a text without an equals sign. */
  datatype Item = Assignment(key: Text, value: Text) | Comment(text: Text) | Nameless(text: Text) | Other(text: Text)

  /** A line with the spaces and tabs around what it holds. */
  datatype Row = Row(front: Text, item: Item, back: Text)

  function Written(item: Item): Text {
    match item
    case Assignment(key, value) => key + "=" + value
    case Comment(text) => "#" + text
    case Nameless(text) => "=" + text
    case Other(text) => text
  }

  predicate IsGap(c: Byte) {
    c == ' ' || c == '\t'
  }

  predicate Gaps(b: Text) {
    forall j :: 0 <= j < |b| ==> IsGap(b[j])
  }

  predicate OnOneLine(b: Text) {
    '\n' !in b && '\r' !in b
  }

  /**
   What is written can be told from its line: the name is not empty, has no equals sign and begins with neither a
   blank nor the mark of a comment, and the value does not end with a blank.
   */
  predicate WellPut(item: Item) {
    match item
    case Assignment(key, value) =>
      && OnOneLine(key) && OnOneLine(value) && '=' !in key
      && key != [] && key[0] != '#' && !IsGap(key[0]) && (value != [] ==> !IsGap(value[|value| - 1]))
    case Comment(text) => OnOneLine(text)
    case Nameless(text) => OnOneLine(text)
    case Other(text) => OnOneLine(text) && '=' !in text
  }

  predicate AllWellPut(rows: seq<Row>) {
    forall k :: 0 <= k < |rows| ==> Gaps(rows[k].front) && Gaps(rows[k].back) && WellPut(rows[k].item)
  }

  function RowText(r: Row): Text {
    r.front + Written(r.item) + r.back
  }

  /** The file with these lines, each ended by `end`. */
  function Print(rows: seq<Row>, end: Text): Text {
    if rows == [] then [] else RowText(rows[0]) + end + Print(rows[1..], end)
  }

  /** The assignments among the lines, in order. */
  function Assigned(rows: seq<Row>): seq<Text> {
    if rows == [] then []
    else (if rows[0].item.Assignment? then [Written(rows[0].item)] else []) + Assigned(rows[1..])
  }

  lemma StrippedFront(front: Text, b: Text)
    requires Gaps(front) && b != [] && !IsGap(b[0])
    ensures TrimmedStart(front + b, GAPS) == b
  {
    hide TrimmedStart;
    assert (front + b)[|front|] == b[0] && (front + b)[|front|..] == b;
    TrimmedStartUnique(front + b, GAPS, |front|);
  }

  lemma StrippedBack(b: Text, back: Text)
    requires Gaps(back) && b != [] && !IsGap(b[|b| - 1])
    ensures TrimmedEnd(b + back, GAPS) == b
  {
    hide TrimmedEnd;
    assert (b + back)[|b| - 1] == b[|b| - 1] && (b + back)[..|b|] == b;
    TrimmedEndUnique(b + back, GAPS, |b|);
  }

  lemma AssignmentLine(r: Row)
    requires Gaps(r.front) && Gaps(r.back) && WellPut(r.item) && r.item.Assignment?
    ensures OfLine(RowText(r)) == [Written(r.item)]
  {
    var b := Written(r.item);
    hide TrimmedStart, TrimmedEnd;
    AssignmentEnds(r.item);
    assert RowText(r) == r.front + (b + r.back);
    assert (b + r.back)[0] == b[0];
    StrippedFront(r.front, b + r.back);
    StrippedBack(b, r.back);
    UntilUnique(b, {'='}, |r.item.key|);
  }

  lemma AssignmentEnds(item: Item)
    requires WellPut(item) && item.Assignment?
    ensures var b := Written(item);
            && b != [] && !IsGap(b[0]) && b[0] != '#' && !IsGap(b[|b| - 1])
            && b[|item.key|] == '=' && forall j :: 0 <= j < |item.key| ==> b[j] != '='
  {
    var b := Written(item);
    assert b == item.key + ("=" + item.value);
    assert forall j :: 0 <= j < |item.key| ==> b[j] == item.key[j];
  }

  /** What begins with a mark of its own keeps it. */
  lemma MarkedLine(front: Text, b: Text)
    requires Gaps(front) && b != [] && (b[0] == '#' || b[0] == '=')
    ensures OfLine(front + b) == []
  {
    hide TrimmedStart, TrimmedEnd;
    StrippedFront(front, b);
    var t := Stripped(front + b);
    assert t == b[..|t|];
    if t != [] {
      assert t[0] == b[0];
    }
  }

  lemma OtherLine(line: Text)
    requires '=' !in line
    ensures OfLine(line) == []
  {
    StrippedClean(line, '=');
    hide TrimmedStart, TrimmedEnd;
    UntilUnique(Stripped(line), {'='}, |Stripped(line)|);
  }

  lemma SilentLine(r: Row)
    requires Gaps(r.front) && Gaps(r.back) && WellPut(r.item) && !r.item.Assignment?
    ensures OfLine(RowText(r)) == []
  {
    hide OfLine;
    var b := Written(r.item);
    assert RowText(r) == r.front + (b + r.back);
    if r.item.Other? {
      assert '=' !in r.front && '=' !in r.back;
      OtherLine(RowText(r));
    } else {
      assert (b + r.back)[0] == b[0];
      MarkedLine(r.front, b + r.back);
    }
  }

  lemma RowOnOneLine(r: Row)
    requires Gaps(r.front) && Gaps(r.back) && WellPut(r.item)
    ensures forall j :: 0 <= j < |RowText(r)| ==> RowText(r)[j] !in BREAKS
  {
    assert OnOneLine(Written(r.item));
    assert OnOneLine(r.front) && OnOneLine(r.back);
    assert OnOneLine(RowText(r));
  }

  /**
   Reading a printed file gives back exactly its assignments, in order, whichever line ends it has. Comments,
   names that are missing and lines without an equals sign contribute nothing, with or without blanks before them.
   */
  lemma {:induction false} ReadUndoesPrint(rows: seq<Row>, end: Text)
    requires AllWellPut(rows) && IsEnding(end)
    ensures Vars(Print(rows, end)) == Assigned(rows)
    decreases |rows|
  {
    hide OfLine, Gathered, Lines, Until, RowText, WellPut, Gaps;
    EmptyLine();
    if rows == [] {
      NoLines(OfLine);
    } else {
      var line, rest := RowText(rows[0]), Print(rows[1..], end);
      RowOnOneLine(rows[0]);
      EndedLine(OfLine, line, end, rest);
      ReadUndoesPrint(rows[1..], end);
      if rows[0].item.Assignment? {
        AssignmentLine(rows[0]);
      } else {
        SilentLine(rows[0]);
      }
    }
  }

  // ---------------------------------------------------------------- when the buffer is too small

  /** The line is itself a variable: nothing is trimmed, nothing skipped. */
  predicate Bare(line: Text) {
    Stripped(line) == line && Assigns(line)
  }

  lemma LineSize(line: Text)
    ensures Size(OfLine(line)) <= |line| + 1
    ensures Size(OfLine(line)) == |line| + 1 <==> Bare(line)
  {
    if Assigns(Stripped(line)) {
      var t := Stripped(line);
      assert [t] == [] + [t];
      SizeMore([], t);
      if |t| == |line| {
        WholeStripped(line);
      }
    }
  }

  lemma WholeStripped(line: Text)
    requires |Stripped(line)| == |line|
    ensures Stripped(line) == line
  {
    var t := TrimmedStart(line, GAPS);
    assert t == line[0..] == line;
    assert Stripped(line) == t[..|t|] == t;
  }

  predicate AllBare(lines: seq<Text>) {
    forall k :: 0 <= k < |lines| ==> Bare(lines[k])
  }

  /** The variables take at most one byte more than the file, and that much exactly when every line is bare. */
  lemma {:induction false} VarsSize(data: Text)
    ensures Size(Vars(data)) <= |data| + 1
    ensures Size(Vars(data)) == |data| + 1 <==> AllBare(Lines(data))
    ensures AllBare(Lines(data)) ==> Vars(data) == Lines(data)
    decreases |data|
  {
    hide Bare, Vars, Size, OfLine, Until;
    var k := Until(data, BREAKS);
    var line := data[..k];
    LineOfVars(data);
    LineSize(line);
    BareLine(line);
    if k == |data| {
      assert line == data && Lines(data) == [data];
      assert OfLine(line) + [] == OfLine(line);
      assert AllBare([data]) <==> Bare([data][0]);
    } else {
      var rest := Lines(data[k + 1..]);
      VarsSize(data[k + 1..]);
      SizeConcat(OfLine(line), Vars(data[k + 1..]));
      BareCons(line, rest);
    }
  }

  lemma BareLine(line: Text)
    ensures Bare(line) ==> OfLine(line) == [line]
  {
  }

  lemma BareCons(line: Text, rest: seq<Text>)
    ensures AllBare([line] + rest) <==> Bare(line) && AllBare(rest)
  {
    hide Bare;
    var all := [line] + rest;
    assert all[0] == line && all[1..] == rest;
    forall k | 0 <= k < |rest| ensures rest[k] == all[k + 1] {
    }
  }

  lemma TwoBytesEach(vs: seq<Text>, n: nat)
    requires n < |vs|
    ensures Size(vs[..n]) < Size(vs)
  {
    SizeConcat(vs[..n], vs[n..]);
    assert vs == vs[..n] + vs[n..];
    assert Size(vs[n..]) > 0;
  }

  /**
   A variable is lost for want of space exactly when the file is as large as the buffer, has at most 64 lines
   and each of them is a bare assignment. It is then the last line, which ends at the last byte.
   */
  lemma LostExactly(data: Text)
    requires |data| <= ENV_BUF
    ensures Kept(data) != FirstVars(data) <==>
              |data| == 4096 && |Lines(data)| <= 64 && AllBare(Lines(data))
    ensures Kept(data) != FirstVars(data) ==> Kept(data) == Lines(data)[..|Lines(data)| - 1]
  {
    hide Vars, AllBare, Size;
    VarsSize(data);
    if |Vars(data)| > MAX_ENV_VARS {
      TwoBytesEach(Vars(data), MAX_ENV_VARS);
    }
  }

  /** Of a printed file that does not fill the buffer the first 64 assignments are kept. */
  lemma KeptAsPrinted(rows: seq<Row>, end: Text)
    requires AllWellPut(rows) && IsEnding(end) && |Print(rows, end)| < 4096
    ensures Kept(Print(rows, end)) == if |Assigned(rows)| <= 64 then Assigned(rows) else Assigned(rows)[..64]
  {
    hide Print, Assigned, Vars, AllBare, Size, AllWellPut;
    ReadUndoesPrint(rows, end);
    LostExactly(Print(rows, end));
  }

  // ---------------------------------------------------------------- the loop of `read_env`

  /** The variables kept so far after one more line. */
  function WithLine(vs: seq<Text>, line: Text): seq<Text> {
    if Size(vs + OfLine(line)) <= ENV_BUF then vs + OfLine(line) else vs
  }

  /** Before the end of the file nothing has been lost, since what is kept never gets ahead of what was read. */
  ghost predicate Progress(data: Text, pos: nat, vs: seq<Text>) {
    if pos < |data| then Size(vs) <= pos && |vs| <= MAX_ENV_VARS && Vars(data) == vs + From(OfLine, data, pos)
    else if Size(Vars(data)) <= ENV_BUF then Vars(data) == vs && |vs| <= MAX_ENV_VARS
    else 0 < |Vars(data)| <= MAX_ENV_VARS && Vars(data)[..|Vars(data)| - 1] == vs
  }

  lemma ProgressStart(data: Text)
    ensures Progress(data, 0, [])
  {
    hide Gathered, OfLine, Lines;
    EmptyLine();
    WholeFile(OfLine, data);
    assert [] + From(OfLine, data, 0) == From(OfLine, data, 0);
    if data == [] {
      NoLines(OfLine);
    }
  }

  lemma ShortLine(line: Text)
    ensures |OfLine(line)| <= 1 && Size(OfLine(line)) <= |line| + 1
  {
    LineSize(line);
  }

  lemma ProgressNext(data: Text, pos: nat, end: nat, next: nat, vs: seq<Text>)
    requires |data| <= ENV_BUF && |vs| < MAX_ENV_VARS
    requires pos < |data| && pos <= end <= |data| && end - pos == Until(data[pos..], BREAKS)
    requires next == end + 1 || (end + 1 < next <= |data| && forall j :: end + 1 <= j < next ==> data[j] in BREAKS)
    requires Progress(data, pos, vs)
    ensures Progress(data, next, WithLine(vs, data[pos..end]))
  {
    hide Gathered, OfLine, Lines, Until, Size;
    var more := OfLine(data[pos..end]);
    ShortLine(data[pos..end]);
    SizeConcat(vs, more);
    EmptyLine();
    NextLine(OfLine, data, pos, end, next);
    assert vs + (more + From(OfLine, data, next)) == vs + more + From(OfLine, data, next);
    if next >= |data| {
      assert vs + more + [] == vs + more == Vars(data);
      assert |more| == 1 ==> Vars(data)[..|Vars(data)| - 1] == vs;
      assert more == [] ==> vs + more == vs;
    }
  }

  lemma ProgressEnd(data: Text, pos: nat, vs: seq<Text>)
    requires |data| <= ENV_BUF && Progress(data, pos, vs) && (pos >= |data| || |vs| == MAX_ENV_VARS)
    ensures Kept(data) == vs
  {
    hide Gathered, OfLine, Lines, Size;
    if pos < |data| {
      assert Vars(data)[..|vs|] == vs && Vars(data)[..|Vars(data)|] == Vars(data);
    }
  }

  // ---------------------------------------------------------------- the buffer and its table of offsets

  class Environment {
    const buf: array<Byte>
    const offsets: array<nat>
    var count: nat

    predicate Sized()
      reads this
    {
      buf.Length == ENV_BUF && offsets.Length == MAX_ENV_VARS && count <= offsets.Length
    }

    /** The strings `vs` lie back to back from the start of the buffer, and the offsets lead to them. */
    ghost predicate Holds(vs: seq<Text>)
      reads this, buf, offsets
    {
      && Sized() && count == |vs| && Size(vs) <= buf.Length
      && buf[..Size(vs)] == Image(vs)
      && forall k :: 0 <= k < count ==> offsets[k] == Size(vs[..k])
    }

    constructor ()
      ensures Holds([]) && fresh(buf) && fresh(offsets)
    {
      buf := new Byte[ENV_BUF](_ => '\0');
      offsets := new nat[MAX_ENV_VARS](_ => 0);
      count := 0;
      new;
      assert buf[..0] == [];
    }

    /** The bytes of `t` and a terminator are copied to `pos`. */
    method CopyIn(t: Text, pos: nat)
      requires pos + |t| + 1 <= buf.Length
      modifies buf
      ensures buf[..pos + |t| + 1] == old(buf[..pos]) + t + "\0"
    {
      ghost var was := buf[..pos];
      for k := 0 to |t|
        invariant buf[..pos + k] == was + t[..k]
      {
        buf[pos + k] := t[k];
        assert buf[..pos + (k + 1)] == buf[..pos + k] + [t[k]];
      }
      buf[pos + |t|] := '\0';
      assert buf[..pos + |t| + 1] == buf[..pos + |t|] + "\0";
    }

    /** One variable is copied behind the others if it fits. */
    method Store(t: Text, pos: nat, ghost vs: seq<Text>) returns (next: nat)
      requires Holds(vs) && pos == Size(vs) && |vs| < MAX_ENV_VARS
      modifies this`count, buf, offsets
      ensures if Size(vs) + |t| + 1 <= ENV_BUF then Holds(vs + [t]) && next == Size(vs + [t])
              else Holds(vs) && next == pos
    {
      hide Size, Image;
      next := pos;
      SizeMore(vs, t);
      if pos + |t| + 1 <= ENV_BUF {
        CopyIn(t, pos);
        offsets[count] := pos;
        OffsetsKept(vs, t);
        count := count + 1;
        next := pos + |t| + 1;
      }
    }

    static lemma OffsetsKept(vs: seq<Text>, t: Text)
      ensures forall k :: 0 <= k < |vs| ==> (vs + [t])[..k] == vs[..k]
      ensures (vs + [t])[..|vs|] == vs
    {
    }

    /** One line of the file: trimmed at both ends and kept when it assigns something and fits. */
    method AddLine(data: Text, pos: nat, end: nat, envPos: nat, ghost vs: seq<Text>)
      returns (next: nat, ghost vs': seq<Text>)
      requires pos <= end <= |data| && Holds(vs) && envPos == Size(vs) && |vs| < MAX_ENV_VARS
      modifies this`count, buf, offsets
      ensures vs' == WithLine(vs, data[pos..end]) && Holds(vs') && next == Size(vs')
    {
      hide TrimmedStart, TrimmedEnd, Size, Holds;
      var start := TrimLeft(data, pos, end, GAPS);
      var lineEnd := TrimRight(data, start, end, GAPS);
      var t := data[start..lineEnd];
      next, vs' := envPos, vs;
      if t != [] && t[0] != '#' {
        var eq := FindEquals(t);
        if 0 < eq < |t| {
          SizeMore(vs, t);
          next := Store(t, envPos, vs);
          vs' := if Size(vs + [t]) <= ENV_BUF then vs + [t] else vs;
        }
      }
    }

    method FindEquals(t: Text) returns (eq: nat)
      ensures eq == Until(t, {'='})
    {
      eq := 0;
      while eq < |t| && t[eq] != '='
        invariant eq <= |t| && forall j :: 0 <= j < eq ==> t[j] != '='
      {
        eq := eq + 1;
      }
      UntilUnique(t, {'='}, eq);
    }

    /** `read_env` on what could be read of the file; an unreadable file counts as empty. */
    method Read(data: Text)
      requires Sized() && |data| <= ENV_BUF
      modifies this`count, buf, offsets
      ensures Holds(Kept(data))
    {
      hide Gathered, OfLine, Lines, Until, Holds, Size, Progress, WithLine;
      count := 0;
      ghost var vs: seq<Text> := [];
      NothingHeld();
      var pos, envPos := 0, 0;
      ProgressStart(data);
      while pos < |data| && count < MAX_ENV_VARS
        invariant 0 <= pos && 0 <= envPos && Holds(vs) && count == |vs| && envPos == Size(vs)
        invariant Progress(data, pos, vs)
        decreases |data| - pos
      {
        var end := FindBreak(data, pos);
        ghost var vs';
        envPos, vs' := AddLine(data, pos, end, envPos, vs);
        var next := SkipBreaks(data, end + 1);
        ProgressNext(data, pos, end, next, vs);
        HeldCount(vs');
        pos, vs := next, vs';
      }
      HeldCount(vs);
      ProgressEnd(data, pos, vs);
    }

    lemma HeldCount(vs: seq<Text>)
      requires Holds(vs)
      ensures Sized() && count == |vs| && Size(vs) <= ENV_BUF
    {
    }

    lemma NothingHeld()
      requires Sized() && count == 0
      ensures Holds([]) && Size([]) == 0
    {
      assert buf[..0] == [];
    }
  }

  // ---------------------------------------------------------------- what the service sees

  /** The C string at offset `at`. */
  function CString(b: Text, at: nat): Text
    requires at <= |b|
  {
    b[at..at + Until(b[at..], {'\0'})]
  }

  lemma {:induction false} ImagePrefix(vs: seq<Text>, k: nat)
    requires k <= |vs|
    ensures Size(vs[..k]) <= Size(vs) && Image(vs)[..Size(vs[..k])] == Image(vs[..k])
    decreases |vs|
  {
    if k == |vs| {
      assert vs[..k] == vs && Image(vs)[..Size(vs)] == Image(vs);
    } else {
      var us := vs[..|vs| - 1];
      ImagePrefix(us, k);
      assert us[..k] == vs[..k];
      assert Image(vs)[..Size(us)] == Image(us);
    }
  }

  lemma CStringAt(b: Text, head: Text, v: Text)
    requires |head| + |v| < |b| && b[..|head| + |v| + 1] == head + v + "\0" && '\0' !in v
    ensures CString(b, |head|) == v
  {
    var at, image := |head|, head + v + "\0";
    forall j | 0 <= j < |v| ensures b[at..][j] == v[j] {
      assert b[..at + |v| + 1][at + j] == image[at + j] == v[j];
    }
    assert b[..at + |v| + 1][at + |v|] == image[at + |v|] == '\0';
    UntilUnique(b[at..], {'\0'}, |v|);
    assert b[at..at + |v|] == v;
  }

  /** The image of the strings up to and including `v`, where `head` is the image of those before it. */
  lemma ImageUpTo(vs: seq<Text>, k: nat)
    requires k < |vs|
    ensures Size(vs[..k]) + |vs[k]| + 1 <= Size(vs)
    ensures Image(vs)[..Size(vs[..k]) + |vs[k]| + 1] == Image(vs[..k]) + vs[k] + "\0"
  {
    hide Size, Image;
    ImagePrefix(vs, k + 1);
    assert vs[..k + 1] == vs[..k] + [vs[k]];
    SizeMore(vs[..k], vs[k]);
  }

  /** The string at each offset of the table is the variable that belongs there. */
  lemma OffsetsLead(b: Text, vs: seq<Text>, k: nat)
    requires Size(vs) <= |b| && b[..Size(vs)] == Image(vs) && k < |vs| && '\0' !in vs[k]
    ensures Size(vs[..k]) < |b| && CString(b, Size(vs[..k])) == vs[k]
  {
    hide Size, Image, CString;
    ImageUpTo(vs, k);
    PrefixOfPrefix(b, Size(vs), Size(vs[..k]) + |vs[k]| + 1);
    CStringAt(b, Image(vs[..k]), vs[k]);
  }

  lemma PrefixOfPrefix(b: Text, m: nat, n: nat)
    requires n <= m <= |b|
    ensures b[..m][..n] == b[..n]
  {
  }

  /** Variables take over the bytes of their line, so they are free of NULs when the file is. */
  lemma {:induction false} VarsClean(lines: seq<Text>, c: Byte)
    requires forall k :: 0 <= k < |lines| ==> c !in lines[k]
    ensures forall k :: 0 <= k < |Gathered(OfLine, lines)| ==> c !in Gathered(OfLine, lines)[k]
  {
    if lines != [] {
      VarsClean(lines[1..], c);
      StrippedClean(lines[0], c);
    }
  }

  lemma StrippedClean(line: Text, c: Byte)
    requires c !in line
    ensures c !in Stripped(line)
  {
    var t := TrimmedStart(line, GAPS);
    assert c !in t by {
      assert forall j :: 0 <= j < |t| ==> t[j] == line[|line| - |t| + j];
    }
    assert forall j :: 0 <= j < |Stripped(line)| ==> Stripped(line)[j] == t[j];
  }

  lemma {:induction false} LinesClean(data: Text, c: Byte)
    requires c !in data
    ensures forall k :: 0 <= k < |Lines(data)| ==> c !in Lines(data)[k]
    decreases |data|
  {
    var k := Until(data, BREAKS);
    if k < |data| {
      LinesClean(data[k + 1..], c);
    }
  }

  lemma KeptPrefix(data: Text)
    ensures |Kept(data)| <= |Vars(data)| && Kept(data) == Vars(data)[..|Kept(data)|]
  {
    hide Vars;
    assert Vars(data)[..|Vars(data)|] == Vars(data);
  }

  /** For a file without NULs, the service sees exactly the kept variables, each at its own offset. */
  lemma ServiceSees(e: Environment, data: Text, k: nat)
    requires e.Holds(Kept(data)) && '\0' !in data && k < e.count
    ensures e.offsets[k] < ENV_BUF && CString(e.buf[..], e.offsets[k]) == Kept(data)[k]
  {
    hide Gathered, Lines, Size, Image, CString;
    LinesClean(data, '\0');
    VarsClean(Lines(data), '\0');
    KeptPrefix(data);
    assert Kept(data)[k] == Vars(data)[k];
    assert e.buf[..][..Size(Kept(data))] == e.buf[..Size(Kept(data))];
    OffsetsLead(e.buf[..], Kept(data), k);
  }
}
