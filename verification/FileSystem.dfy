/** The part of the file system that log files live in: directory entries, contents, and what descriptors lead to. */
module FileSystem {
  import opened Types

  /** names: the inode of each path; inodes: the content of each file; target: the inode behind a descriptor. */
  datatype Files = Files(names: map<Text, int>, inodes: map<int, Text>, target: map<int, int>)

  function Content(f: Files, p: Text): Text {
    if p in f.names && f.names[p] in f.inodes then f.inodes[f.names[p]] else []
  }

  /** Every path leads to a file, and different paths to different files: there are no links. */
  predicate Plain(f: Files) {
    && (forall p :: p in f.names ==> f.names[p] in f.inodes)
    && (forall p, q :: p in f.names && q in f.names && p != q ==> f.names[p] != f.names[q])
  }

  /** The descriptor appends to the file under `p`. */
  ghost predicate Leads(f: Files, fd: int, p: Text) {
    fd in f.target && p in f.names && f.names[p] in f.inodes && f.target[fd] == f.names[p]
  }

  /** `open` for appending: nothing happens, or `fd` leads to the file under `p`, made if there was none. */
  ghost predicate OpenedAs(f: Files, p: Text, fd: int, g: Files) {
    if fd < 0 then g == f
    else if p in f.names then f.names[p] in f.inodes && g == f.(target := f.target[fd := f.names[p]])
    else exists n :: n !in f.inodes && g == Files(f.names[p := n], f.inodes[n := []], f.target[fd := n])
  }

  /** `rename`: nothing happens, or the entry `src` becomes `dst`. */
  predicate RenamedAs(f: Files, src: Text, dst: Text, g: Files) {
    || g == f
    || (src in f.names && src != dst && g == f.(names := (f.names - {src})[dst := f.names[src]]))
  }

  /** `b` is appended to the file behind `fd`. */
  function Appended(f: Files, fd: int, b: Text): Files {
    if fd in f.target && f.target[fd] in f.inodes
    then f.(inodes := f.inodes[f.target[fd] := f.inodes[f.target[fd]] + b])
    else f
  }

  lemma OpenKeeps(f: Files, p: Text, fd: int, g: Files)
    requires OpenedAs(f, p, fd, g)
    ensures Plain(f) ==> Plain(g)
    ensures forall q :: Content(g, q) == Content(f, q)
    ensures forall x, q :: Leads(f, x, q) && (fd < 0 || x != fd) ==> Leads(g, x, q)
    ensures fd >= 0 ==> Leads(g, fd, p)
  {
  }

  /** A rename leaves every other path and every descriptor alone. */
  lemma RenameKeeps(f: Files, src: Text, dst: Text, g: Files)
    requires RenamedAs(f, src, dst, g)
    ensures Plain(f) ==> Plain(g)
    ensures src == dst ==> g == f
    ensures forall q :: q != src && q != dst ==> Content(g, q) == Content(f, q)
    ensures forall x, q :: Leads(f, x, q) && q != src && q != dst ==> Leads(g, x, q)
  {
  }

  /** Without links, appending through a descriptor changes the one file it leads to. */
  lemma AppendKeeps(f: Files, fd: int, b: Text, p: Text)
    requires Plain(f) && Leads(f, fd, p)
    ensures Plain(Appended(f, fd, b))
    ensures forall q :: Content(Appended(f, fd, b), q) == Content(f, q) + if q == p then b else []
    ensures forall x, q :: Leads(f, x, q) <==> Leads(Appended(f, fd, b), x, q)
  {
    var g := Appended(f, fd, b);
    forall q ensures Content(g, q) == Content(f, q) + if q == p then b else [] {
      assert Content(f, q) + [] == Content(f, q);
    }
  }

  lemma AppendTwice(f: Files, fd: int, a: Text, b: Text)
    ensures Appended(Appended(f, fd, a), fd, b) == Appended(f, fd, a + b)
  {
    if fd in f.target && f.target[fd] in f.inodes {
      var n := f.target[fd];
      assert f.inodes[n] + a + b == f.inodes[n] + (a + b);
      assert f.inodes[n := f.inodes[n] + a][n := f.inodes[n] + a + b] == f.inodes[n := f.inodes[n] + (a + b)];
    }
  }

  lemma AppendNothing(f: Files, fd: int)
    ensures Appended(f, fd, []) == f
  {
    if fd in f.target && f.target[fd] in f.inodes {
      var n := f.target[fd];
      assert f.inodes[n] + [] == f.inodes[n] && f.inodes[n := f.inodes[n]] == f.inodes;
    }
  }
}
