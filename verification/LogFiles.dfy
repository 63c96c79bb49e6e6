/** Where a service's output is logged, and which path rotation renames. */
module LogFiles {
  import opened Types
  import opened Numbers
  import opened Paths

  function LogDir(dir: Text): Text {
    Packed(dir + "/log")
  }

  function Suffix(c: Channel): Text {
    if c == Out then "/current.out" else "/current.err"
  }

  function LogName(c: Channel): Text {
    "/log" + Suffix(c)
  }

  /** The file a stream is logged to. */
  function LogPath(dir: Text, c: Channel): Text {
    Packed(LogDir(dir) + Suffix(c))
  }

  /** The path that `rotate_log` moves away: the log path without its directory part `/log`. */
  function RotatedFrom(dir: Text, c: Channel): Text {
    Packed(dir + Suffix(c))
  }

  function RotatedTo(dir: Text, c: Channel, ts: nat, rotations: nat): Text {
    Packed(dir + Suffix(c) + "." + Decimal(ts) + "." + Decimal(rotations))
  }

  lemma PackedAt(b: Text, k: nat)
    requires '\0' !in b && k < |b| && k < PATH_BUF - 1
    ensures k < |Packed(b)| && Packed(b)[k] == b[k]
  {
  }

  lemma PackedWhole(b: Text)
    requires '\0' !in b
    ensures Packed(b) == Take(b, PATH_BUF - 1)
  {
  }

  /** The log path, not cut in two steps. */
  lemma LogPathAtOnce(dir: Text, c: Channel)
    ensures LogPath(dir, c) == Packed(dir + "/log" + Suffix(c))
  {
    PackedConcat(dir + "/log", Suffix(c));
  }

  lemma SuffixClean(c: Channel)
    ensures '\0' !in Suffix(c) && |Suffix(c)| == 12 && Suffix(c)[0] == '/' && Suffix(c)[1] == 'c'
  {
  }

  lemma NonZeroFirst(dir: Text, rest: Text)
    ensures Packed(dir + rest) == Packed(NonZero(dir) + rest)
  {
    NonZeroConcat(dir, rest);
    NonZeroConcat(NonZero(dir), rest);
  }

  lemma LogNames()
    ensures |LogName(Out)| == |LogName(Err)| == 16 && '\0' !in LogName(Out) && '\0' !in LogName(Err)
    ensures LogName(Out)[..13] == LogName(Err)[..13] && LogName(Out)[13] == 'o' && LogName(Err)[13] == 'e'
  {
  }

  lemma Assoc(a: Text, b: Text, c: Text)
    ensures a + b + c == a + (b + c)
  {
  }

  function LogFile(c: Channel): Text {
    if c == Out then "/log/current.out" else "/log/current.err"
  }

  lemma LogFileName(c: Channel)
    ensures "/log" + Suffix(c) == LogFile(c) && |LogFile(c)| == 16 && '\0' !in LogFile(c)
  {
  }

  /** Where the streams are logged, and which path rotation renames, while the paths fit. */
  lemma PathsAsWritten(dir: Text, c: Channel)
    requires '\0' !in dir && |dir| + 16 < 1024
    ensures LogPath(dir, c) == dir + LogFile(c)
    ensures RotatedFrom(dir, c) == dir + LogFile(c)[4..]
  {
    hide LogPath, LogFile;
    LogPathAtOnce(dir, c);
    LogFileName(c);
    SuffixClean(c);
    Assoc(dir, "/log", Suffix(c));
    PackedFits(dir + LogFile(c));
    PackedFits(dir + Suffix(c));
    assert ("/log" + Suffix(c))[4..] == Suffix(c);
  }

  /** The archive is named after the time and the number of the rotation, while that fits. */
  lemma ArchiveAsWritten(dir: Text, c: Channel, ts: nat, rotations: nat)
    requires '\0' !in dir && |dir| + 14 + |Decimal(ts)| + |Decimal(rotations)| < 1024
    ensures RotatedTo(dir, c, ts, rotations) == RotatedFrom(dir, c) + "." + Decimal(ts) + "." + Decimal(rotations)
  {
    hide Decimal, Suffix;
    DigitsClean(ts);
    DigitsClean(rotations);
    SuffixClean(c);
    PackedFits(dir + Suffix(c));
    PackedFits(dir + Suffix(c) + "." + Decimal(ts) + "." + Decimal(rotations));
  }

  /** The log path, cut once and for all. */
  lemma LogPathWhole(dir: Text, c: Channel)
    ensures LogPath(dir, c) == Packed(NonZero(dir) + LogName(c))
  {
    LogPathAtOnce(dir, c);
    hide LogPath, Packed, Suffix;
    Assoc(dir, "/log", Suffix(c));
    NonZeroFirst(dir, LogName(c));
  }

  /** The two streams of a service share one log file exactly when the path is cut before the names differ. */
  lemma LogsSharedIff(dir: Text)
    ensures LogPath(dir, Out) == LogPath(dir, Err) <==> |NonZero(dir)| + 14 >= 1024
  {
    LogNames();
    hide LogPath, Packed, LogName;
    LogPathWhole(dir, Out);
    LogPathWhole(dir, Err);
    var d := NonZero(dir);
    var out: Text, err: Text := d + LogName(Out), d + LogName(Err);
    assert '\0' !in out && '\0' !in err;
    if |d| + 14 < PATH_BUF {
      PackedAt(out, |d| + 13);
      PackedAt(err, |d| + 13);
    } else {
      PackedWhole(out);
      PackedWhole(err);
      CutSame(d, LogName(Out), LogName(Err), 13, PATH_BUF - 1);
    }
  }

  lemma CutSame(d: Text, x: Text, y: Text, k: nat, n: nat)
    requires k <= |x| && k <= |y| && x[..k] == y[..k] && n <= |d| + k
    ensures (d + x)[..n] == (d + y)[..n]
  {
    assert d + x == d + x[..k] + x[k..] && d + y == d + y[..k] + y[k..];
  }

  lemma SourceMisses(d: Text, c: Channel, k: Channel)
    requires '\0' !in d && |d| + 2 < PATH_BUF
    ensures Packed(d + Suffix(c)) != Packed(d + "/log" + Suffix(k))
  {
    SuffixClean(c);
    SuffixClean(k);
    hide Packed, Suffix;
    var log, src := d + "/log" + Suffix(k), d + Suffix(c);
    assert '\0' !in log && '\0' !in src;
    assert log[|d| + 1] == 'l' && src[|d| + 1] == 'c';
    PackedAt(log, |d| + 1);
    PackedAt(src, |d| + 1);
  }

  lemma TargetMisses(d: Text, c: Channel, k: Channel, tail: Text)
    requires '\0' !in d && |d| + 2 < PATH_BUF && '\0' !in tail
    ensures Packed(d + Suffix(c) + tail) != Packed(d + "/log" + Suffix(k))
  {
    SuffixClean(c);
    SuffixClean(k);
    hide Packed, Suffix;
    var log, dst := d + "/log" + Suffix(k), d + Suffix(c) + tail;
    assert '\0' !in log && '\0' !in dst;
    assert log[|d| + 1] == 'l' && dst[|d| + 1] == 'c';
    PackedAt(log, |d| + 1);
    PackedAt(dst, |d| + 1);
  }

  /** Cut to what fits, a long directory followed by different names is one path. */
  lemma CutAlike(d: Text, x: Text, y: Text)
    requires '\0' !in d && |d| + 2 >= PATH_BUF && '\0' !in x && '\0' !in y
    requires |x| >= 2 && |y| >= 2 && x[0] == y[0]
    ensures Packed(d + x) == Packed(d + y)
  {
    hide Packed;
    assert '\0' !in d + x && '\0' !in d + y;
    PackedWhole(d + x);
    PackedWhole(d + y);
    assert (d + x)[..PATH_BUF - 1] == (d + y)[..PATH_BUF - 1];
  }

  function Archive(ts: nat, rotations: nat): Text {
    "." + Decimal(ts) + "." + Decimal(rotations)
  }

  lemma ArchiveClean(ts: nat, rotations: nat)
    ensures '\0' !in Archive(ts, rotations)
  {
    DigitsClean(ts);
    DigitsClean(rotations);
  }

  lemma PathsFromNonZero(dir: Text, c: Channel, ts: nat, rotations: nat)
    ensures LogPath(dir, c) == Packed(NonZero(dir) + "/log" + Suffix(c))
    ensures RotatedFrom(dir, c) == Packed(NonZero(dir) + Suffix(c))
    ensures RotatedTo(dir, c, ts, rotations) == Packed(NonZero(dir) + Suffix(c) + Archive(ts, rotations))
  {
    hide Packed, Suffix, Decimal, LogPath;
    LogPathAtOnce(dir, c);
    assert dir + "/log" + Suffix(c) == dir + ("/log" + Suffix(c));
    NonZeroFirst(dir, "/log" + Suffix(c));
    assert NonZero(dir) + "/log" + Suffix(c) == NonZero(dir) + ("/log" + Suffix(c));
    NonZeroFirst(dir, Suffix(c));
    var tail := Suffix(c) + Archive(ts, rotations);
    assert dir + Suffix(c) + "." + Decimal(ts) + "." + Decimal(rotations) == dir + tail;
    NonZeroFirst(dir, tail);
    assert NonZero(dir) + Suffix(c) + Archive(ts, rotations) == NonZero(dir) + tail;
  }

  /**
   Rotation renames the log file exactly when the directory leaves no room for two more characters, and then
   source and destination are one path; otherwise neither is the path of a log of the service. So it never
   moves, removes or replaces a log file.
   */
  lemma RotationMissesLog(dir: Text, c: Channel, k: Channel, ts: nat, rotations: nat)
    ensures RotatedFrom(dir, c) != LogPath(dir, c) <==> |NonZero(dir)| + 2 < 1024
    ensures if |NonZero(dir)| + 2 < 1024
            then RotatedFrom(dir, c) != LogPath(dir, k) && RotatedTo(dir, c, ts, rotations) != LogPath(dir, k)
            else RotatedTo(dir, c, ts, rotations) == RotatedFrom(dir, c)
  {
    PathsFromNonZero(dir, c, ts, rotations);
    PathsFromNonZero(dir, k, ts, rotations);
    hide RotatedFrom, RotatedTo, LogPath, Packed, Suffix, Archive;
    var d := NonZero(dir);
    SuffixClean(c);
    SuffixClean(k);
    ArchiveClean(ts, rotations);
    if |d| + 2 < PATH_BUF {
      SourceMisses(d, c, c);
      SourceMisses(d, c, k);
      TargetMisses(d, c, k, Archive(ts, rotations));
    } else {
      assert d + "/log" + Suffix(c) == d + ("/log" + Suffix(c));
      CutAlike(d, Suffix(c), "/log" + Suffix(c));
      assert d + Suffix(c) + Archive(ts, rotations) == d + (Suffix(c) + Archive(ts, rotations));
      CutAlike(d, Suffix(c), Suffix(c) + Archive(ts, rotations));
    }
  }

  // ---------------------------------------------------------------- directories side by side

  /** A path into a directory. */
  function Into(dir: Text, x: Text): Text {
    dir + "/" + x
  }

  ghost predicate Below(root: Text, dir: Text) {
    exists n :: Slashless(n) && dir == DirOf(root, n)
  }

  /** The path is that of a log in a directory below `root`. */
  ghost predicate LogBelow(root: Text, p: Text) {
    exists d, c :: Below(root, d) && p == LogPath(d, c)
  }

  lemma DigitsClean(v: nat)
    ensures '\0' !in Decimal(v)
  {
  }

  /** A path into the shorter of two directories below one root has a slash where the longer has none. */
  lemma ShorterApart(r: Text, n: Text, m: Text, x: Text, y: Text)
    requires '\0' !in r && Slashless(n) && Slashless(m) && '\0' !in x && '\0' !in y
    requires |Take(r + n, PATH_BUF - 1)| < |Take(r + m, PATH_BUF - 1)|
    ensures var d, e := Take(r + n, PATH_BUF - 1), Take(r + m, PATH_BUF - 1);
            Take(Into(d, x), PATH_BUF - 1) != Take(Into(e, y), PATH_BUF - 1)
  {
    var d, e := Take(r + n, PATH_BUF - 1), Take(r + m, PATH_BUF - 1);
    var p, q := Take(Into(d, x), PATH_BUF - 1), Take(Into(e, y), PATH_BUF - 1);
    assert d == r + n && p[|d|] == '/';
    assert q[|d|] == e[|d|] == (r + m)[|d|] == m[|d| - |r|];
  }

  lemma SameLengthApart(d: Text, e: Text, x: Text, y: Text)
    requires |d| == |e| < PATH_BUF && d != e
    ensures Take(Into(d, x), PATH_BUF - 1) != Take(Into(e, y), PATH_BUF - 1)
  {
    var p, q := Take(Into(d, x), PATH_BUF - 1), Take(Into(e, y), PATH_BUF - 1);
    assert p[..|d|] == d && q[..|e|] == e;
  }

  lemma PackedClean(b: Text)
    requires '\0' !in b
    ensures Packed(b) == Take(b, PATH_BUF - 1) && '\0' !in Take(b, PATH_BUF - 1)
  {
  }

  lemma IntoPacked(d: Text, x: Text)
    requires '\0' !in d && '\0' !in x
    ensures Packed(Into(d, x)) == Take(Into(d, x), PATH_BUF - 1)
  {
    assert '\0' !in Into(d, x);
  }

  lemma TakenApart(r: Text, n: Text, m: Text, x: Text, y: Text)
    requires '\0' !in r && Slashless(n) && Slashless(m) && '\0' !in x && '\0' !in y
    requires Take(r + n, PATH_BUF - 1) != Take(r + m, PATH_BUF - 1)
    ensures Take(Into(Take(r + n, PATH_BUF - 1), x), PATH_BUF - 1)
         != Take(Into(Take(r + m, PATH_BUF - 1), y), PATH_BUF - 1)
  {
    hide Take, Into;
    var d, e := Take(r + n, PATH_BUF - 1), Take(r + m, PATH_BUF - 1);
    if |d| < |e| {
      ShorterApart(r, n, m, x, y);
    } else if |e| < |d| {
      ShorterApart(r, m, n, y, x);
    } else {
      SameLengthApart(d, e, x, y);
    }
  }

  lemma DirTaken(root: Text, n: Text)
    requires Slashless(n)
    ensures '\0' !in NonZero(root) + "/" && '\0' !in DirOf(root, n)
    ensures DirOf(root, n) == Take(NonZero(root) + "/" + n, PATH_BUF - 1)
  {
    DirFromNonZero(root, n);
    PackedClean(NonZero(root) + "/" + n);
  }

  /** No path into one directory below `root` is a path into another. */
  lemma Apart(root: Text, d: Text, e: Text, x: Text, y: Text)
    requires Below(root, d) && Below(root, e) && d != e && '\0' !in x && '\0' !in y
    ensures Packed(Into(d, x)) != Packed(Into(e, y))
  {
    hide Packed, DirOf, Take, Into, Slashless;
    var n :| Slashless(n) && d == DirOf(root, n);
    var m :| Slashless(m) && e == DirOf(root, m);
    DirTaken(root, n);
    DirTaken(root, m);
    IntoPacked(d, x);
    IntoPacked(e, y);
    TakenApart(NonZero(root) + "/", n, m, x, y);
  }

  lemma DirFromNonZero(root: Text, n: Text)
    ensures DirOf(root, n) == Packed(NonZero(root) + "/" + n)
  {
    assert root + "/" + n == root + ("/" + n);
    NonZeroFirst(root, "/" + n);
    assert NonZero(root) + "/" + n == NonZero(root) + ("/" + n);
  }

  /** Rotation in one directory below `root` spares the logs of every directory below it. */
  lemma RotationSpares(root: Text, d: Text, c: Channel, ts: nat, rotations: nat, p: Text)
    requires Below(root, d) && LogBelow(root, p)
    ensures RotatedFrom(d, c) == RotatedTo(d, c, ts, rotations)
         || (p != RotatedFrom(d, c) && p != RotatedTo(d, c, ts, rotations))
  {
    var e, k :| Below(root, e) && p == LogPath(e, k);
    if d == e {
      RotationMissesLog(d, c, k, ts, rotations);
    } else {
      RotationApart(root, d, c, ts, rotations, e, k);
    }
  }

  function FileName(c: Channel): Text {
    if c == Out then "current.out" else "current.err"
  }

  lemma SuffixInto(c: Channel)
    ensures Suffix(c) == "/" + FileName(c) && "/log" + Suffix(c) == "/" + ("log/" + FileName(c))
  {
  }

  lemma LogInto(d: Text, c: Channel)
    ensures LogPath(d, c) == Packed(Into(d, "log/" + FileName(c)))
  {
    LogPathAtOnce(d, c);
    SuffixInto(c);
    hide LogPath, Packed, Suffix, FileName;
    Assoc(d, "/log", Suffix(c));
    Assoc(d, "/", "log/" + FileName(c));
  }

  lemma RotatedInto(d: Text, c: Channel, ts: nat, rotations: nat)
    ensures RotatedFrom(d, c) == Packed(Into(d, FileName(c)))
    ensures RotatedTo(d, c, ts, rotations) == Packed(Into(d, FileName(c) + Archive(ts, rotations)))
  {
    SuffixInto(c);
    hide Decimal, Packed, Suffix, FileName;
    Assoc(d, "/", FileName(c));
    var tail := Archive(ts, rotations);
    assert d + Suffix(c) + "." + Decimal(ts) + "." + Decimal(rotations) == d + Suffix(c) + tail;
    hide Archive;
    Assoc(d, Suffix(c), tail);
    Assoc("/", FileName(c), tail);
    Assoc(d, "/", FileName(c) + tail);
  }

  lemma NamesClean(c: Channel, ts: nat, rotations: nat)
    ensures '\0' !in FileName(c) && '\0' !in "log/" + FileName(c) && '\0' !in FileName(c) + Archive(ts, rotations)
  {
    ArchiveClean(ts, rotations);
    hide Archive;
  }

  lemma RotationApart(root: Text, d: Text, c: Channel, ts: nat, rotations: nat, e: Text, k: Channel)
    requires Below(root, d) && Below(root, e) && d != e
    ensures LogPath(e, k) != RotatedFrom(d, c) && LogPath(e, k) != RotatedTo(d, c, ts, rotations)
  {
    hide LogPath, RotatedFrom, RotatedTo, Packed, Below, Archive, FileName;
    LogInto(e, k);
    RotatedInto(d, c, ts, rotations);
    NamesClean(c, ts, rotations);
    NamesClean(k, ts, rotations);
    Apart(root, d, e, FileName(c), "log/" + FileName(k));
    Apart(root, d, e, FileName(c) + Archive(ts, rotations), "log/" + FileName(k));
  }

  /** Different services log to different files. */
  lemma LogsApart(root: Text, d: Text, c: Channel, e: Text, k: Channel)
    requires Below(root, d) && Below(root, e) && d != e
    ensures LogPath(d, c) != LogPath(e, k)
  {
    hide LogPath, Packed, Below, Archive, FileName;
    LogInto(d, c);
    LogInto(e, k);
    NamesClean(c, 0, 0);
    NamesClean(k, 0, 0);
    Apart(root, d, e, "log/" + FileName(c), "log/" + FileName(k));
  }
}
