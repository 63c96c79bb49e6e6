/** Directory scans as a function on the service table, and what it keeps. */
module Registry {
  import opened Types
  import opened Machine
  import opened Paths
  import Depends

  /** What a scan finds about one name in the root directory. */
  datatype Entry = Entry(name: FileName, runnable: bool, down: bool, once: bool, depends: Text, hasLog: bool)

  /** The entry is a service directory, namely `dir`. */
  predicate Lists(root: Text, e: Entry, dir: Text) {
    e.runnable && e.name != "" && e.name != "." && e.name != ".." && DirOf(root, e.name) == dir
  }

  predicate Offers(root: Text, es: seq<Entry>, dir: Text) {
    exists k :: 0 <= k < |es| && Lists(root, es[k], dir)
  }

  function RegistrationOf(e: Entry, dir: Text): Registration {
    Registration(Take(e.name, NAME_BUF - 1), dir, e.down, e.once,
                 Depends.Meaning(Take(e.depends, Depends.DEP_FILE_BUF)), e.hasLog)
  }

  predicate Placed(s: Service, dir: Text) {
    s.active && s.dir == dir
  }

  /** The first active slot with directory `dir`. */
  function FindByDir(svcs: seq<Service>, dir: Text): (k: Option<nat>)
    ensures k.Some? ==> k.value < |svcs| && Placed(svcs[k.value], dir)
    ensures k.Some? ==> forall j :: 0 <= j < k.value ==> !Placed(svcs[j], dir)
    ensures k.None? ==> forall j :: 0 <= j < |svcs| ==> !Placed(svcs[j], dir)
  {
    if svcs == [] then None
    else
      var k := FindByDir(svcs[..|svcs| - 1], dir);
      if k.Some? then k
      else if Placed(svcs[|svcs| - 1], dir) then Some(|svcs| - 1)
      else None
  }

  /** The first slot that is free. */
  function FirstFree(svcs: seq<Service>): (k: Option<nat>)
    ensures k.Some? ==> k.value < |svcs| && !svcs[k.value].active && forall j :: 0 <= j < k.value ==> svcs[j].active
    ensures k.None? ==> Full(svcs)
  {
    if svcs == [] then None
    else
      var k := FirstFree(svcs[..|svcs| - 1]);
      if k.Some? then k
      else if !svcs[|svcs| - 1].active then Some(|svcs| - 1)
      else None
  }

  predicate Full(svcs: seq<Service>) {
    forall j :: 0 <= j < |svcs| ==> svcs[j].active
  }

  function Seen(s: Service): Service {
    s.(present := true, stopping := false)
  }

  /** The table after one entry of the listing. */
  function ScanOne(svcs: seq<Service>, root: Text, e: Entry): (t: seq<Service>)
    ensures |t| == |svcs|
  {
    var dir := DirOf(root, e.name);
    if !Lists(root, e, dir) then svcs
    else
      var k, free := FindByDir(svcs, dir), FirstFree(svcs);
      if k.Some? then svcs[k.value := Seen(svcs[k.value])]
      else if free.Some? then svcs[free.value := Registered(RegistrationOf(e, dir))]
      else svcs
  }

  function Unlist(svcs: seq<Service>): (t: seq<Service>)
    ensures |t| == |svcs| && forall i :: 0 <= i < |svcs| ==> t[i] == Unlisted(svcs[i])
  {
    seq(|svcs|, i requires 0 <= i < |svcs| => Unlisted(svcs[i]))
  }

  /** The table after a scan: nothing is present but what the listing shows. */
  function Scanned(svcs: seq<Service>, root: Text, es: seq<Entry>): (t: seq<Service>)
    ensures |t| == |svcs|
  {
    if es == [] then Unlist(svcs) else ScanOne(Scanned(svcs, root, es[..|es| - 1]), root, es[|es| - 1])
  }

  // ---------------------------------------------------------------- what a scan keeps

  /** A service registered before, when its directory is listed or not. */
  function Rescanned(s: Service, listed: bool): Service {
    s.(present := listed, stopping := s.stopping && !listed)
  }

  predicate NewFrom(root: Text, es: seq<Entry>, s: Service, k: nat) {
    k < |es| && Lists(root, es[k], s.dir) && s == Registered(RegistrationOf(es[k], s.dir))
  }

  /** Registered services stay in their slots and nothing but their marks changes. */
  ghost predicate OldKept(svcs: seq<Service>, root: Text, es: seq<Entry>, t: seq<Service>) {
    |t| == |svcs| &&
    forall i :: 0 <= i < |svcs| && svcs[i].active ==> t[i] == Rescanned(svcs[i], Offers(root, es, svcs[i].dir))
  }

  /** What becomes active is what the listing shows, registered in a slot that was free. */
  ghost predicate NewListed(svcs: seq<Service>, root: Text, es: seq<Entry>, t: seq<Service>) {
    |t| == |svcs| &&
    forall i :: 0 <= i < |svcs| && !svcs[i].active ==> t[i] == svcs[i] || exists k :: NewFrom(root, es, t[i], k)
  }

  /** A listed directory is left out only when there is no free slot. */
  ghost predicate NoneOmitted(root: Text, es: seq<Entry>, t: seq<Service>) {
    forall dir :: Offers(root, es, dir) ==> Full(t) || FindByDir(t, dir).Some?
  }

  lemma OffersMore(root: Text, es: seq<Entry>, e: Entry, dir: Text)
    ensures Offers(root, es + [e], dir) <==> Offers(root, es, dir) || Lists(root, e, dir)
  {
    if Offers(root, es, dir) {
      var k :| 0 <= k < |es| && Lists(root, es[k], dir);
      assert (es + [e])[k] == es[k];
    }
    if Lists(root, e, dir) {
      assert (es + [e])[|es|] == e;
    }
  }

  lemma PlacedOnce(svcs: seq<Service>, i: nat)
    requires UniqueDirs(svcs) && i < |svcs| && svcs[i].active
    ensures FindByDir(svcs, svcs[i].dir) == Some(i)
  {
    assert Placed(svcs[i], svcs[i].dir);
  }

  lemma OneKeepsDirs(svcs: seq<Service>, root: Text, e: Entry)
    requires UniqueDirs(svcs)
    ensures UniqueDirs(ScanOne(svcs, root, e))
  {
    hide Lists;
    var dir := DirOf(root, e.name);
    if FindByDir(svcs, dir).None? {
      forall j | 0 <= j < |svcs| && svcs[j].active ensures svcs[j].dir != dir {
        assert !Placed(svcs[j], dir);
      }
    }
  }

  lemma OneKeepsOld(svcs: seq<Service>, root: Text, es: seq<Entry>, e: Entry, t: seq<Service>)
    requires OldKept(svcs, root, es, t) && UniqueDirs(t)
    ensures OldKept(svcs, root, es + [e], ScanOne(t, root, e))
  {
    var u, dir := ScanOne(t, root, e), DirOf(root, e.name);
    forall i | 0 <= i < |svcs| && svcs[i].active
      ensures u[i] == Rescanned(svcs[i], Offers(root, es + [e], svcs[i].dir))
    {
      OffersMore(root, es, e, svcs[i].dir);
      PlacedOnce(t, i);
      hide Offers, FindByDir, FirstFree, UniqueDirs;
      assert Lists(root, e, svcs[i].dir) <==> Lists(root, e, dir) && dir == svcs[i].dir;
    }
  }

  /** One entry changes at most one slot: a registered one is seen again, or a free one is taken. */
  lemma OneSlot(t: seq<Service>, root: Text, e: Entry, i: nat)
    requires i < |t|
    ensures var u, dir := ScanOne(t, root, e), DirOf(root, e.name);
            || u[i] == t[i]
            || (t[i].active && u[i] == Seen(t[i]))
            || (!t[i].active && Lists(root, e, dir) && u[i] == Registered(RegistrationOf(e, dir)))
  {
  }

  lemma SeenNew(r: Registration)
    ensures Seen(Registered(r)) == Registered(r) && Registered(r).dir == r.dir
  {
  }

  lemma NewAgain(root: Text, es: seq<Entry>, e: Entry, s: Service, k: nat)
    requires NewFrom(root, es, s, k)
    ensures NewFrom(root, es + [e], s, k) && Seen(s) == s
  {
    assert (es + [e])[k] == es[k];
    SeenNew(RegistrationOf(es[k], s.dir));
  }

  lemma OneListed(svcs: seq<Service>, root: Text, es: seq<Entry>, e: Entry, t: seq<Service>)
    requires NewListed(svcs, root, es, t)
    ensures NewListed(svcs, root, es + [e], ScanOne(t, root, e))
  {
    hide ScanOne, Seen, DirOf, Lists, Registered;
    var u, dir := ScanOne(t, root, e), DirOf(root, e.name);
    forall i | 0 <= i < |svcs| && !svcs[i].active
      ensures u[i] == svcs[i] || exists k :: NewFrom(root, es + [e], u[i], k)
    {
      OneSlot(t, root, e, i);
      if t[i] != svcs[i] {
        var k :| NewFrom(root, es, t[i], k);
        NewAgain(root, es, e, t[i], k);
        assert t[i].active by { NewIsActive(root, es, t[i], k); }
        assert NewFrom(root, es + [e], u[i], k);
      } else if u[i] != t[i] {
        SeenNew(RegistrationOf(e, dir));
        assert NewFrom(root, es + [e], u[i], |es|);
      }
    }
  }

  lemma NewIsActive(root: Text, es: seq<Entry>, s: Service, k: nat)
    requires NewFrom(root, es, s, k)
    ensures s.active
  {
  }

  lemma OneNotOmitted(root: Text, es: seq<Entry>, e: Entry, t: seq<Service>)
    requires NoneOmitted(root, es, t)
    ensures NoneOmitted(root, es + [e], ScanOne(t, root, e))
  {
    hide DirOf, Offers;
    var u, dir := ScanOne(t, root, e), DirOf(root, e.name);
    forall d | Offers(root, es + [e], d) ensures Full(u) || FindByDir(u, d).Some? {
      OffersMore(root, es, e, d);
      if Offers(root, es, d) {
        if FindByDir(t, d).Some? {
          assert Placed(u[FindByDir(t, d).value], d);
        }
      } else {
        assert d == dir;
        if FindByDir(t, d).Some? {
          assert Placed(u[FindByDir(t, d).value], d);
        } else if FirstFree(t).Some? {
          assert Placed(u[FirstFree(t).value], d);
        }
      }
    }
  }

  /**
   A scan: services registered before keep their slots and are present exactly when their directory is
   listed, which is also what clears their stop mark; new ones go to free slots; none is left out while
   there is a free slot; no directory is registered twice.
   */
  lemma {:induction false} ScanKeeps(svcs: seq<Service>, root: Text, es: seq<Entry>)
    requires UniqueDirs(svcs)
    ensures UniqueDirs(Scanned(svcs, root, es))
    ensures OldKept(svcs, root, es, Scanned(svcs, root, es))
    ensures NewListed(svcs, root, es, Scanned(svcs, root, es))
    ensures NoneOmitted(root, es, Scanned(svcs, root, es))
    decreases |es|
  {
    hide OldKept, NewListed, NoneOmitted, UniqueDirs, ScanOne, Unlist;
    if es == [] {
      NothingOffered(svcs, root);
    } else {
      var c, e := es[..|es| - 1], es[|es| - 1];
      var t := Scanned(svcs, root, c);
      ScanKeeps(svcs, root, c);
      OneKeepsDirs(t, root, e);
      OneKeepsOld(svcs, root, c, e, t);
      OneListed(svcs, root, c, e, t);
      OneNotOmitted(root, c, e, t);
      assert c + [e] == es;
    }
  }

  lemma NothingOffered(svcs: seq<Service>, root: Text)
    requires UniqueDirs(svcs)
    ensures UniqueDirs(Unlist(svcs)) && OldKept(svcs, root, [], Unlist(svcs))
    ensures NewListed(svcs, root, [], Unlist(svcs)) && NoneOmitted(root, [], Unlist(svcs))
  {
  }

  // ---------------------------------------------------------------- as found

  /** The slot holds the service of the entry `e` as it has just been found: nothing has happened to it yet. */
  predicate FoundAs(root: Text, e: Entry, s: Service) {
    && e.runnable && e.name != "" && e.name != "." && e.name != ".."
    && s.active && s.present && !s.stopping && !s.manualStart
    && s.dir == DirOf(root, e.name) && s.name == (if |e.name| < 64 then e.name else e.name[..63])
    && s.autoStart == !e.down && s.once == e.once && s.hasLog == e.hasLog
    && s.deps == Depends.Meaning(if |e.depends| <= 512 then e.depends else e.depends[..512])
    && s.state == Down && s.pid <= 0 && s.logPid <= 0 && s.restartAt == 0 && s.restarts == 0
    && s.streams.out == s.streams.err == Stream(-1, -1, 0, 0)
  }

  lemma RegisteredAsFound(root: Text, e: Entry, dir: Text)
    requires Lists(root, e, dir)
    ensures FoundAs(root, e, Registered(RegistrationOf(e, dir)))
  {
    hide Depends.Meaning, DirOf;
  }

  /** Whatever a scan makes active is some listed entry, as found. */
  lemma NewAsFound(svcs: seq<Service>, root: Text, es: seq<Entry>, i: nat)
    requires UniqueDirs(svcs) && i < |svcs| && !svcs[i].active && Scanned(svcs, root, es)[i].active
    ensures exists k :: 0 <= k < |es| && FoundAs(root, es[k], Scanned(svcs, root, es)[i])
  {
    hide Scanned, OldKept, NoneOmitted, UniqueDirs, FoundAs, Lists, Registered, RegistrationOf, FindByDir, FirstFree;
    ScanKeeps(svcs, root, es);
    var s := Scanned(svcs, root, es)[i];
    var k: nat :| NewFrom(root, es, s, k);
    RegisteredAsFound(root, es[k], s.dir);
  }

  // ---------------------------------------------------------------- unique names

  /** Every service is registered under the name of its directory below `root`. */
  predicate Rooted(root: Text, svcs: seq<Service>) {
    forall i :: 0 <= i < |svcs| && svcs[i].active ==> svcs[i].dir == root + "/" + svcs[i].name
  }

  /** The name fits its buffer and the path of the directory fits its own. */
  predicate Fits(root: Text, e: Entry) {
    |e.name| < 64 && |root + "/" + e.name| < 1024 && '\0' !in root + "/" + e.name
  }

  /** Registered under the names of their directories, services have different names. */
  lemma RootedUnique(root: Text, svcs: seq<Service>)
    requires Rooted(root, svcs)
    ensures UniqueNames(svcs) <==> UniqueDirs(svcs)
  {
    forall i, j | 0 <= i < j < |svcs| && svcs[i].active && svcs[j].active
      ensures svcs[i].name == svcs[j].name <==> svcs[i].dir == svcs[j].dir
    {
      var n := |root| + 1;
      assert svcs[i].dir[n..] == svcs[i].name && svcs[j].dir[n..] == svcs[j].name;
    }
  }

  /** Scanning names and paths that fit keeps services registered under the names of their directories. */
  lemma ScanRooted(svcs: seq<Service>, root: Text, es: seq<Entry>)
    requires UniqueDirs(svcs) && Rooted(root, svcs) && forall k :: 0 <= k < |es| ==> Fits(root, es[k])
    ensures Rooted(root, Scanned(svcs, root, es)) && UniqueNames(Scanned(svcs, root, es))
  {
    hide Scanned, NewFrom, NoneOmitted, UniqueDirs, UniqueNames, Fits, Offers;
    var t := Scanned(svcs, root, es);
    ScanKeeps(svcs, root, es);
    forall i | 0 <= i < |t| && t[i].active ensures t[i].dir == root + "/" + t[i].name {
      if !svcs[i].active {
        var k :| NewFrom(root, es, t[i], k);
        NewRooted(root, es, t[i], k);
      }
    }
    RootedUnique(root, t);
  }

  lemma NewRooted(root: Text, es: seq<Entry>, s: Service, k: nat)
    requires NewFrom(root, es, s, k) && forall j :: 0 <= j < |es| ==> Fits(root, es[j])
    ensures s.dir == root + "/" + s.name
  {
    assert Fits(root, es[k]);
    PackedFits(root + "/" + es[k].name);
  }

  /** The path of the directory fits its buffer; its name may be longer than what is registered. */
  predicate PathFits(root: Text, e: Entry) {
    |root + "/" + e.name| < 1024 && '\0' !in root
  }

  /** The name of a directory below `root`. */
  function BaseOf(root: Text, dir: Text): Text {
    if |dir| > |root| then dir[|root| + 1..] else []
  }

  /** Every service is registered under the first 63 bytes of the name of its directory. */
  predicate NamedByDir(root: Text, svcs: seq<Service>) {
    forall i :: 0 <= i < |svcs| && svcs[i].active ==>
      && svcs[i].dir == root + "/" + BaseOf(root, svcs[i].dir)
      && svcs[i].name == Take(BaseOf(root, svcs[i].dir), NAME_BUF - 1)
  }

  predicate Known(root: Text, svcs: seq<Service>, n: Text) {
    FindByDir(svcs, root + "/" + n).Some?
  }

  /** No two of the directories are registered under one name. */
  ghost predicate NamesDiffer(root: Text, svcs: seq<Service>) {
    forall n, m :: Known(root, svcs, n) && Known(root, svcs, m) && n != m ==>
      Take(n, 63) != Take(m, 63)
  }

  lemma BaseIs(root: Text, n: Text)
    ensures BaseOf(root, root + "/" + n) == n
  {
  }

  lemma NewNamed(root: Text, es: seq<Entry>, s: Service, k: nat)
    requires NewFrom(root, es, s, k) && PathFits(root, es[k])
    ensures s.dir == root + "/" + BaseOf(root, s.dir) && s.name == Take(BaseOf(root, s.dir), NAME_BUF - 1)
  {
    PackedFits(root + "/" + es[k].name);
    BaseIs(root, es[k].name);
  }

  lemma ScanNamed(svcs: seq<Service>, root: Text, es: seq<Entry>)
    requires UniqueDirs(svcs) && NamedByDir(root, svcs) && forall k :: 0 <= k < |es| ==> PathFits(root, es[k])
    ensures NamedByDir(root, Scanned(svcs, root, es)) && UniqueDirs(Scanned(svcs, root, es))
  {
    hide Scanned, NewFrom, NoneOmitted, UniqueDirs, PathFits, Offers, BaseOf, Take;
    var t := Scanned(svcs, root, es);
    ScanKeeps(svcs, root, es);
    forall i | 0 <= i < |t| && t[i].active
      ensures t[i].dir == root + "/" + BaseOf(root, t[i].dir) && t[i].name == Take(BaseOf(root, t[i].dir), NAME_BUF - 1)
    {
      if !svcs[i].active {
        var k: nat :| NewFrom(root, es, t[i], k);
        assert k < |es| by { NewIndex(root, es, t[i], k); }
        NewNamed(root, es, t[i], k);
      }
    }
  }

  lemma NewIndex(root: Text, es: seq<Entry>, s: Service, k: nat)
    requires NewFrom(root, es, s, k)
    ensures k < |es|
  {
  }

  lemma KnownSlot(root: Text, t: seq<Service>, i: nat)
    requires NamedByDir(root, t) && i < |t| && t[i].active
    ensures Known(root, t, BaseOf(root, t[i].dir))
  {
    hide BaseOf;
    assert Placed(t[i], root + "/" + BaseOf(root, t[i].dir));
  }

  lemma KnownName(root: Text, t: seq<Service>, n: Text) returns (i: nat)
    requires NamedByDir(root, t) && Known(root, t, n)
    ensures i < |t| && t[i].active && t[i].dir == root + "/" + n && t[i].name == Take(n, NAME_BUF - 1)
  {
    i := FindByDir(t, root + "/" + n).value;
    BaseIs(root, n);
    hide BaseOf, FindByDir;
  }

  /**
   Services named by their directories have different names exactly when the directories' names differ in 63 bytes.
   */
  lemma NamedUniqueIff(root: Text, t: seq<Service>)
    requires NamedByDir(root, t) && UniqueDirs(t)
    ensures UniqueNames(t) <==> NamesDiffer(root, t)
  {
    hide Known, BaseOf, Take, NamedByDir;
    if UniqueNames(t) {
      forall n, m | Known(root, t, n) && Known(root, t, m) && n != m
        ensures Take(n, NAME_BUF - 1) != Take(m, NAME_BUF - 1)
      {
        var i := KnownName(root, t, n);
        var j := KnownName(root, t, m);
        BaseIs(root, n);
        BaseIs(root, m);
        assert i != j;
        assert i < j || j < i;
      }
    }
    if NamesDiffer(root, t) {
      forall i, j | 0 <= i < j < |t| && t[i].active && t[j].active ensures t[i].name != t[j].name {
        SlotNamed(root, t, i);
        SlotNamed(root, t, j);
        assert t[i].dir != t[j].dir;
      }
    }
  }

  lemma SlotNamed(root: Text, t: seq<Service>, i: nat)
    requires NamedByDir(root, t) && i < |t| && t[i].active
    ensures Known(root, t, BaseOf(root, t[i].dir)) && t[i].dir == root + "/" + BaseOf(root, t[i].dir)
    ensures t[i].name == Take(BaseOf(root, t[i].dir), NAME_BUF - 1)
  {
    KnownSlot(root, t, i);
  }

  lemma KnownAfter(svcs: seq<Service>, root: Text, es: seq<Entry>, n: Text)
    requires UniqueDirs(svcs) && !Full(Scanned(svcs, root, es))
    ensures Known(root, Scanned(svcs, root, es), n) <==> Known(root, svcs, n) || Offers(root, es, root + "/" + n)
  {
    hide Scanned, Offers, Full, UniqueDirs, NewFrom;
    var t, dir := Scanned(svcs, root, es), root + "/" + n;
    ScanKeeps(svcs, root, es);
    if Known(root, svcs, n) {
      assert Placed(t[FindByDir(svcs, dir).value], dir);
    }
    if Known(root, t, n) && !Known(root, svcs, n) {
      var i := FindByDir(t, dir).value;
      assert !Placed(svcs[i], dir);
      if !svcs[i].active {
        var k :| NewFrom(root, es, t[i], k);
        NewOffered(root, es, t[i], k);
      }
    }
  }

  lemma NewOffered(root: Text, es: seq<Entry>, s: Service, k: nat)
    requires NewFrom(root, es, s, k)
    ensures Offers(root, es, s.dir)
  {
  }

  /**
   Names longer than their buffer: after a scan services have different names exactly when no two registered
   directories have names that agree in their first 63 bytes. While there is room, those are the directories
   registered before and the ones listed.
   */
  lemma ScanUniqueIff(svcs: seq<Service>, root: Text, es: seq<Entry>)
    requires UniqueDirs(svcs) && NamedByDir(root, svcs) && forall k :: 0 <= k < |es| ==> PathFits(root, es[k])
    ensures UniqueNames(Scanned(svcs, root, es)) <==> NamesDiffer(root, Scanned(svcs, root, es))
    ensures !Full(Scanned(svcs, root, es)) ==>
              forall n ::
                Known(root, Scanned(svcs, root, es), n) <==> Known(root, svcs, n) || Offers(root, es, root + "/" + n)
  {
    hide Scanned, Known, NamedByDir, UniqueDirs, UniqueNames, NamesDiffer, PathFits, Full, Offers;
    ScanNamed(svcs, root, es);
    NamedUniqueIff(root, Scanned(svcs, root, es));
    if !Full(Scanned(svcs, root, es)) {
      forall n {
        KnownAfter(svcs, root, es, n);
      }
    }
  }

  /** Two directories whose names agree in 63 bytes, found by one scan of an empty table: one name, two services. */
  lemma LongNamesClash(svcs: seq<Service>, root: Text, e: Entry, f: Entry)
    requires |svcs| >= 2 && forall i :: 0 <= i < |svcs| ==> !svcs[i].active
    requires e.runnable && f.runnable && PathFits(root, e) && PathFits(root, f)
    requires |e.name| >= 64 && |f.name| >= 64 && e.name != f.name && Take(e.name, 63) == Take(f.name, 63)
    ensures !UniqueNames(Scanned(svcs, root, [e, f]))
  {
    hide DirOf, BaseOf, RegistrationOf, ScanOne, Unlist, Scanned, FindByDir, FirstFree, Lists, PathFits;
    hide Registered, Take, UniqueNames;
    var d, k, u := DirOf(root, e.name), DirOf(root, f.name), Unlist(svcs);
    EntryDir(root, e);
    EntryDir(root, f);
    DirsDiffer(root, e.name, f.name);
    ScanTwo(svcs, root, e, f);
    NotPlaced(u, d);
    TakesFree(u, root, e, 0);
    var t := u[0 := Registered(RegistrationOf(e, d))];
    NamesOf(e, d);
    NamesOf(f, k);
    NotPlaced(t, k);
    TakesFree(t, root, f, 1);
    SameNameTwice(t, Registered(RegistrationOf(f, k)));
  }

  lemma SameNameTwice(t: seq<Service>, s: Service)
    requires |t| >= 2 && t[0].active && s.active && t[0].name == s.name
    ensures !UniqueNames(t[1 := s])
  {
    var u := t[1 := s];
    assert u[0] == t[0] && u[1] == s;
  }

  lemma DirsDiffer(root: Text, n: Text, m: Text)
    requires n != m
    ensures root + "/" + n != root + "/" + m
  {
    BaseIs(root, n);
    BaseIs(root, m);
  }

  lemma EntryDir(root: Text, e: Entry)
    requires e.runnable && PathFits(root, e) && |e.name| >= NAME_BUF
    ensures Lists(root, e, DirOf(root, e.name)) && DirOf(root, e.name) == root + "/" + e.name
  {
    PackedFits(root + "/" + e.name);
  }

  lemma ScanTwo(svcs: seq<Service>, root: Text, e: Entry, f: Entry)
    ensures Scanned(svcs, root, [e, f]) == ScanOne(ScanOne(Unlist(svcs), root, e), root, f)
  {
    hide ScanOne, Unlist;
    assert [e][..0] == [];
    assert Scanned(svcs, root, [e]) == ScanOne(Unlist(svcs), root, e);
    assert [e, f][..1] == [e];
  }

  lemma NotPlaced(svcs: seq<Service>, dir: Text)
    requires forall i :: 0 <= i < |svcs| && svcs[i].active ==> svcs[i].dir != dir
    ensures FindByDir(svcs, dir) == None
  {
  }

  /** A listed directory that is not registered takes the first free slot. */
  lemma TakesFree(svcs: seq<Service>, root: Text, e: Entry, k: nat)
    requires Lists(root, e, DirOf(root, e.name)) && FindByDir(svcs, DirOf(root, e.name)) == None
    requires k < |svcs| && !svcs[k].active && forall j :: 0 <= j < k ==> svcs[j].active
    ensures ScanOne(svcs, root, e) == svcs[k := Registered(RegistrationOf(e, DirOf(root, e.name)))]
  {
    FirstIs(svcs, k);
    hide Registered, RegistrationOf, DirOf;
  }

  lemma NamesOf(e: Entry, dir: Text)
    ensures var s := Registered(RegistrationOf(e, dir));
            s.active && s.dir == dir && s.name == Take(e.name, NAME_BUF - 1)
  {
  }

  lemma FirstIs(svcs: seq<Service>, k: nat)
    requires k < |svcs| && !svcs[k].active && forall j :: 0 <= j < k ==> svcs[j].active
    ensures FirstFree(svcs) == Some(k)
  {
  }
}
