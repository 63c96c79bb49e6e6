/** Reconciling the service table with the directories under the root. */
module Scan {
  import opened Types
  import opened Machine
  import opened Ledger
  import opened Propagation
  import opened LogFiles
  import opened Logs
  import opened Paths
  import opened Registry
  import opened Drains
  import opened Launching
  import opened Supervision
  import Depends

  /** The steps of a scan: marks and registrations. */
  predicate ScanEvent(e: Event) {
    e.ScanOpen? || (e.Do? && (e.a.ScanSeen? || e.a.Register?))
  }

  predicate OnlyScan(es: seq<Event>) {
    forall k :: 0 <= k < |es| ==> ScanEvent(es[k])
  }

  /** `find_service_by_dir`. */
  method FindServiceByDir(sup: Supervisor, dir: Text) returns (k: Option<nat>)
    ensures k == FindByDir(sup.services[..], dir)
  {
    for i := 0 to sup.services.Length
      invariant forall j :: 0 <= j < i ==> !Placed(sup.services[..][j], dir)
    {
      if sup.services[i].active && sup.services[i].dir == dir {
        assert Placed(sup.services[..][i], dir);
        return Some(i);
      }
    }
    return None;
  }

  lemma NewSlot(s: Service, r: Registration)
    requires !s.active
    ensures forall e :: Fd(Registered(r), e) == Fd(s, e)
  {
  }

  /** Slot `i` is filled in. */
  method RegisterAt(sup: Supervisor, i: nat, e: Entry, dir: Text, ghost w: World, ghost h: seq<Event>,
                    ghost es: seq<Event>)
    requires sup.Did(w, h, es) && i < sup.services.Length
    requires FindByDir(sup.services[..], dir) == None && FirstFree(sup.services[..]) == Some(i)
    requires dir == DirOf(sup.root, e.name)
    modifies sup.services, sup`history
    ensures sup.Did(w, h, es + [Do(i, Register(RegistrationOf(e, dir)))])
    ensures sup.services[..] == old(sup.services[..])[i := Registered(RegistrationOf(e, dir))]
  {
    hide Run, LegalRun, Logged, Taken, Refused, Asked, SlotOk, ProcLedger, Handles, Depends.Meaning, KeepsLogs;
    hide DirOf, Slashless;
    ghost var v, r := sup.Snapshot(), RegistrationOf(e, dir);
    var deps := Depends.ParseDepends(Take(e.depends, Depends.DEP_FILE_BUF));
    forall j | 0 <= j < |v.svcs| && v.svcs[j].active ensures v.svcs[j].dir != dir {
      assert !Placed(v.svcs[j], dir);
    }
    NewSlot(v.svcs[i], r);
    sup.services[i] := SERVICE_EMPTY.(active := true, present := true, name := Take(e.name, NAME_BUF - 1), dir := dir,
                                      autoStart := !e.down, once := e.once, deps := deps, hasLog := e.hasLog);
    SameFds(v, i, sup.services[i]);
    assert Legal(v, Do(i, Register(r)));
    assert Below(sup.root, dir);
    RegisterKeepsLogs(sup.root, v, sup.kernel.files, i, r);
    sup.RecordLogs(w, h, es, v, Do(i, Register(r)), sup.kernel.files);
  }

  /** `add_service`: the first free slot is taken; without one the directory is left out. */
  method AddService(sup: Supervisor, e: Entry, dir: Text, ghost w: World, ghost h: seq<Event>, ghost es: seq<Event>)
    returns (ghost steps: seq<Event>)
    requires sup.Did(w, h, es) && FindByDir(sup.services[..], dir) == None && dir == DirOf(sup.root, e.name)
    modifies sup.services, sup`history
    ensures sup.Did(w, h, es + steps) && OnlyScan(steps)
    ensures var svcs, free := old(sup.services[..]), FirstFree(old(sup.services[..]));
            sup.services[..] == if free.Some? then svcs[free.value := Registered(RegistrationOf(e, dir))] else svcs
    ensures Lists(sup.root, e, dir) && FirstFree(old(sup.services[..])).Some? ==>
              FoundAs(sup.root, e, sup.services[FirstFree(old(sup.services[..])).value])
  {
    hide Supervisor.Did, FindByDir, RegistrationOf, DirOf, FoundAs, Registered, Lists;
    if Lists(sup.root, e, dir) {
      RegisteredAsFound(sup.root, e, dir);
    }
    steps := [];
    assert es + [] == es;
    for i := 0 to sup.services.Length
      invariant sup.Did(w, h, es) && sup.services[..] == old(sup.services[..])
      invariant forall j :: 0 <= j < i ==> sup.services[j].active
    {
      if !sup.services[i].active {
        assert FirstFree(sup.services[..]) == Some(i) by { FreeHere(sup.services[..], i); }
        RegisterAt(sup, i, e, dir, w, h, es);
        steps := [Do(i, Register(RegistrationOf(e, dir)))];
        return;
      }
    }
  }

  lemma FreeHere(svcs: seq<Service>, i: nat)
    requires i < |svcs| && !svcs[i].active && forall j :: 0 <= j < i ==> svcs[j].active
    ensures FirstFree(svcs) == Some(i)
  {
  }

  method MarkSeen(sup: Supervisor, i: nat, ghost w: World, ghost h: seq<Event>, ghost es: seq<Event>)
    requires sup.Did(w, h, es) && i < sup.services.Length && sup.services[i].active
    modifies sup.services, sup`history
    ensures sup.Did(w, h, es + [Do(i, ScanSeen)])
    ensures sup.services[..] == old(sup.services[..])[i := Seen(old(sup.services[i]))]
  {
    hide Run, LegalRun, Logged, Taken, Refused, Asked, SlotOk, ProcLedger, Handles;
    ghost var v := sup.Snapshot();
    sup.services[i] := sup.services[i].(present := true, stopping := false);
    SameFds(v, i, sup.services[i]);
    sup.Record(w, h, es, v, Do(i, ScanSeen));
  }

  /** One entry of the listing. */
  method ScanEntry(sup: Supervisor, e: Entry, ghost w: World, ghost h: seq<Event>, ghost es: seq<Event>)
    returns (ghost steps: seq<Event>)
    requires sup.Did(w, h, es)
    modifies sup.services, sup`history
    ensures sup.Did(w, h, es + steps) && OnlyScan(steps)
    ensures sup.services[..] == ScanOne(old(sup.services[..]), sup.root, e)
  {
    hide Supervisor.Did, RegistrationOf, Seen;
    steps := [];
    assert es + [] == es;
    if e.name == "" || e.name == "." || e.name == ".." {
      return;
    }
    var dir := JoinPath(sup.root, e.name);
    if e.runnable {
      var k := FindServiceByDir(sup, dir);
      if k.Some? {
        MarkSeen(sup, k.value, w, h, es);
        steps := [Do(k.value, ScanSeen)];
      } else {
        steps := AddService(sup, e, dir, w, h, es);
      }
    }
  }

  /** The path of a service directory, put together in a bounded buffer. */
  method JoinPath(root: Text, name: Text) returns (dir: Text)
    ensures dir == DirOf(root, name)
  {
    var p := new CStrBuf();
    p.Push(root);
    p.Push("/");
    p.Push(name);
    dir := p.Bytes();
    assert [] + root == root;
    PackedConcat(root, "/");
    PackedConcat(root + "/", name);
  }

  lemma UnlistedStep(v: World)
    ensures Legal(v, ScanOpen) && Step(v, ScanOpen) == v.(svcs := Unlist(v.svcs))
  {
  }

  /** Every registered service is taken for missing until it is seen. */
  method OpenScan(sup: Supervisor, ghost w: World, ghost h: seq<Event>, ghost es: seq<Event>)
    requires sup.Did(w, h, es)
    modifies sup.services, sup`history
    ensures sup.Did(w, h, es + [ScanOpen]) && sup.services[..] == Unlist(old(sup.services[..]))
  {
    hide Run, LegalRun, Logged, Taken, Refused, Asked, Inv, Step, Legal;
    ghost var v := sup.Snapshot();
    for i := 0 to sup.services.Length
      invariant sup.history == old(sup.history)
      invariant forall j :: 0 <= j < i ==> sup.services[j] == Unlisted(v.svcs[j])
      invariant forall j :: i <= j < sup.services.Length ==> sup.services[j] == v.svcs[j]
    {
      if sup.services[i].active {
        sup.services[i] := sup.services[i].(present := false);
      }
    }
    UnlistedStep(v);
    sup.Record(w, h, es, v, ScanOpen);
  }

  /** `scan_services`. The root directory may be unreadable. */
  method ScanServices(sup: Supervisor, readable: bool, entries: seq<Entry>,
                      ghost w: World, ghost h: seq<Event>, ghost es: seq<Event>)
    returns (ok: bool, ghost steps: seq<Event>)
    requires sup.Did(w, h, es)
    modifies sup.services, sup`history
    ensures sup.Did(w, h, es + steps) && OnlyScan(steps) && ok == readable
    ensures if ok then steps != [] && steps[0] == ScanOpen else steps == []
    ensures sup.services[..] == if ok then Scanned(old(sup.services[..]), sup.root, entries) else old(sup.services[..])
  {
    hide Supervisor.Did, ScanOne, Unlist;
    steps := [];
    assert es + [] == es;
    if !readable {
      return false, [];
    }
    OpenScan(sup, w, h, es);
    steps := [ScanOpen];
    assert entries[..0] == [];
    for k := 0 to |entries|
      invariant sup.Did(w, h, es + steps) && OnlyScan(steps) && steps != [] && steps[0] == ScanOpen
      invariant sup.services[..] == Scanned(old(sup.services[..]), sup.root, entries[..k])
    {
      ghost var more := ScanEntry(sup, entries[k], w, h, es + steps);
      assert es + steps + more == es + (steps + more);
      assert entries[..k + 1][..k] == entries[..k];
      steps := steps + more;
    }
    assert entries[..|entries|] == entries;
    ok := true;
  }

  // ---------------------------------------------------------------- services whose directory is gone

  predicate Orphaned(s: Service) {
    s.active && !s.present
  }

  /** The same service with the same processes; other services may have been told to stop, and nothing else. */
  predicate Kept(s: Service, t: Service) {
    && t == s.(stopping := t.stopping, state := t.state, logStopping := t.logStopping)
    && (!Orphaned(s) ==> t == s || t == Stopped(s))
  }

  /** A service whose directory is gone is given up exactly when both its processes are, and told to stop otherwise. */
  predicate Handled(s: Service, t: Service) {
    if Orphaned(s) && s.pid <= 0 && s.logPid <= 0 then !t.active
    else
      && Kept(s, t)
      && (Orphaned(s) ==> (t.pid > 0 ==> t.stopping) && (t.logPid > 0 ==> t.logStopping))
  }

  ghost predicate AllHandled(a: seq<Service>, b: seq<Service>, n: nat) {
    |a| == |b| && forall j :: 0 <= j < |a| ==> if j < n then Handled(a[j], b[j]) else Kept(a[j], b[j])
  }

  lemma HandledMarked(a: seq<Service>, b: seq<Service>, n: nat, gone: set<nat>)
    requires AllHandled(a, b, n)
    ensures AllHandled(a, Marked(b, gone), n)
  {
  }

  lemma HandledNext(a: seq<Service>, b: seq<Service>, n: nat, s: Service)
    requires AllHandled(a, b, n) && n < |a| && Handled(a[n], s)
    ensures AllHandled(a, b[n := s], n + 1)
  {
  }

  lemma FreeSlot(s: Service)
    ensures s.(streams := Streams(s.streams.out.(readFd := -1, logFd := -1),
                                  s.streams.err.(readFd := -1, logFd := -1)),
               active := false, state := Down) == SlotAfter(s, Free)
    ensures Handles(SlotAfter(s, Free)) == {} && !SlotAfter(s, Free).active
  {
    assert forall e :: Fd(SlotAfter(s, Free), e) == -1;
  }

  /** Slot `i` is given up, its descriptors closed. */
  method Release(sup: Supervisor, i: nat, ghost w: World, ghost h: seq<Event>, ghost es: seq<Event>)
    requires sup.Did(w, h, es) && i < sup.services.Length && Orphaned(sup.services[i])
    requires sup.services[i].pid <= 0 && sup.services[i].logPid <= 0
    modifies sup.services, sup.kernel`fds, sup`history
    ensures sup.Did(w, h, es + [Do(i, Free)])
    ensures sup.services[..] == old(sup.services[..])[i := sup.services[i]] && !sup.services[i].active
  {
    hide Run, LegalRun, Logged, Taken, Refused, Asked, SlotOk, ProcLedger, Handles, SlotAfter;
    ghost var v := sup.Snapshot();
    var s := sup.services[i];
    OpenFds(v);
    sup.CloseServiceFds(s, v.fds);
    FreeSlot(s);
    sup.services[i] := s.(streams := Streams(s.streams.out.(readFd := -1, logFd := -1),
                                             s.streams.err.(readFd := -1, logFd := -1)),
                          active := false, state := Down);
    sup.Record(w, h, es, v, Do(i, Free));
  }

  /** Slot `k` is told to stop after everything that had lost a dependency before. */
  ghost predicate StopsAfter(svcs: seq<Service>, k: nat, steps: seq<Event>) {
    exists victims :: AllDoomed(svcs, victims)
                      && steps == Terminations(victims, LostDependency) + [Do(k, Terminate(Removed))]
  }

  function LoggerSteps(s: Service, k: nat): seq<Event> {
    if s.logPid > 0 && !s.logStopping then [Do(k, TerminateLogger)] else []
  }

  function FreeSteps(s: Service, k: nat): seq<Event> {
    if s.pid <= 0 && s.logPid <= 0 then [Do(k, Free)] else []
  }

  /** The turn of slot `k` of the table `svcs`. */
  ghost predicate SlotPart(svcs: seq<Service>, k: nat, part: seq<Event>) {
    k < |svcs| &&
    if !Orphaned(svcs[k]) then part == []
    else
      exists stops ::
        && (if svcs[k].pid > 0 && !svcs[k].stopping then StopsAfter(svcs, k, stops) else stops == [])
        && part == stops + LoggerSteps(svcs[k], k) + FreeSteps(svcs[k], k)
  }

  /** From the world `v` on, slot after slot has had its turn. */
  ghost predicate MissingHandled(v: World, parts: seq<seq<Event>>) {
    forall k :: 0 <= k < |parts| ==>
      LegalRun(v, Joined(parts[..k])) && SlotPart(Run(v, Joined(parts[..k])).svcs, k, parts[k])
  }

  lemma MissingMore(v: World, parts: seq<seq<Event>>, part: seq<Event>)
    requires MissingHandled(v, parts) && LegalRun(v, Joined(parts))
             && SlotPart(Run(v, Joined(parts)).svcs, |parts|, part)
    ensures MissingHandled(v, parts + [part]) && Joined(parts + [part]) == Joined(parts) + part
  {
    hide LegalRun, Run, SlotPart, Joined;
    JoinedMore(parts, part);
    var more := parts + [part];
    assert more[..|parts|] == parts;
    forall k | 0 <= k < |more|
      ensures LegalRun(v, Joined(more[..k])) && SlotPart(Run(v, Joined(more[..k])).svcs, k, more[k])
    {
      if k < |parts| {
        assert more[..k] == parts[..k];
      }
    }
  }

  /** The main process of a service whose directory is gone is told to stop, after what had lost a dependency before. */
  method StopRemoved(sup: Supervisor, i: nat, ghost w: World, ghost h: seq<Event>, ghost es: seq<Event>,
                     ghost a: seq<Service>)
    returns (ghost steps: seq<Event>)
    requires sup.Did(w, h, es) && i < sup.services.Length && AllHandled(a, sup.services[..], i)
    requires Orphaned(sup.services[i]) && sup.services[i].pid > 0
    modifies sup.services, sup.kernel`sent, sup`history
    ensures sup.Did(w, h, es + steps) && AllHandled(a, sup.services[..], i)
    ensures Orphaned(sup.services[i]) && sup.services[i].stopping
    ensures sup.services[i] == Stopped(old(sup.services[i]))
    ensures StopsAfter(old(sup.services[..]), i, steps)
  {
    hide Supervisor.Did, AllDoomed, Closed, AllHandled;
    ghost var b := sup.services[..];
    ghost var victims, passes := sup.StopTransitiveDeps(w, h, es);
    HandledMarked(a, b, i, Members(victims));
    sup.Terminate(i, Removed, w, h, es + Terminations(victims, LostDependency));
    HandledMarked(a, Marked(b, Members(victims)), i, {i});
    assert sup.services[..] == Marked(Marked(b, Members(victims)), {i});
    steps := Terminations(victims, LostDependency) + [Do(i, Terminate(Removed))];
    assert es + Terminations(victims, LostDependency) + [Do(i, Terminate(Removed))] == es + steps;
  }

  lemma LoggerToo(a: seq<Service>, b: seq<Service>, i: nat)
    requires AllHandled(a, b, i) && i < |b| && Orphaned(b[i])
    ensures AllHandled(a, b[i := LoggerStopped(b[i])], i)
    ensures |a| == |b| && Kept(a[i], b[i])
  {
  }

  /** The turn of slot `i`. */
  method HandleSlot(sup: Supervisor, i: nat, ghost w: World, ghost h: seq<Event>, ghost es: seq<Event>,
                    ghost a: seq<Service>)
    returns (ghost part: seq<Event>)
    requires sup.Did(w, h, es) && i < sup.services.Length && AllHandled(a, sup.services[..], i)
    requires Orphaned(sup.services[i])
    modifies sup.services, sup.kernel`sent, sup.kernel`fds, sup`history
    ensures sup.Did(w, h, es + part) && AllHandled(a, sup.services[..], i + 1)
    ensures SlotPart(old(sup.services[..]), i, part)
  {
    hide Supervisor.Did, AllHandled, StopsAfter;
    ghost var s := sup.services[i];
    ghost var stops, logger, free: seq<Event> := [], [], [];
    assert es + [] == es;
    if sup.services[i].pid > 0 && !sup.services[i].stopping {
      stops := StopRemoved(sup, i, w, h, es, a);
    }
    LoggerToo(a, sup.services[..], i);
    if sup.services[i].logPid > 0 && !sup.services[i].logStopping {
      sup.TerminateLogger(i, w, h, es + stops);
      logger := [Do(i, TerminateLogger)];
    }
    assert es + stops + [] == es + stops && es + stops + logger == es + (stops + logger);
    LoggerToo(a, sup.services[..], i);
    ghost var b := sup.services[..];
    if sup.services[i].pid <= 0 && sup.services[i].logPid <= 0 {
      Release(sup, i, w, h, es + (stops + logger));
      free := [Do(i, Free)];
    }
    part := stops + logger + free;
    assert es + (stops + logger) + [] == es + (stops + logger) && es + (stops + logger) + free == es + part;
    assert logger == LoggerSteps(s, i) && free == FreeSteps(s, i);
    assert sup.services[..] == b[i := sup.services[i]];
    HandledNext(a, b, i, sup.services[i]);
  }

  /**
   `handle_missing_services`: a slot is given up exactly when its directory is gone and so are both its
   processes; the processes that are left are told to stop, each after what had lost a dependency before;
   nothing moves to another slot.
   */
  method HandleMissingServices(sup: Supervisor, ghost w: World, ghost h: seq<Event>, ghost es: seq<Event>)
    returns (ghost parts: seq<seq<Event>>)
    requires sup.Did(w, h, es)
    modifies sup.services, sup.kernel`sent, sup.kernel`fds, sup`history
    ensures sup.Did(w, h, es + Joined(parts))
    ensures |parts| == sup.services.Length && MissingHandled(old(sup.Snapshot()), parts)
    ensures forall j :: 0 <= j < sup.services.Length ==> Handled(old(sup.services[j]), sup.services[j])
  {
    hide Supervisor.Did, Kept, MissingHandled, LegalRun, Run, Joined, SlotPart;
    ghost var v, a := sup.Snapshot(), sup.services[..];
    sup.DidNothing(w, h, es);
    parts := [];
    NoneHandled(v);
    AllSame(a);
    for i := 0 to sup.services.Length
      invariant sup.Did(v, h + es, Joined(parts)) && AllHandled(a, sup.services[..], i)
      invariant |parts| == i && MissingHandled(v, parts)
    {
      sup.DidNothing(v, h + es, Joined(parts));
      ghost var part: seq<Event> := [];
      if sup.services[i].active && !sup.services[i].present {
        part := HandleSlot(sup, i, v, h + es, Joined(parts), a);
      } else {
        PresentHandled(a, sup.services[..], i);
        assert SlotPart(sup.services[..], i, []) by { PresentPart(sup.services[..], i); }
        assert Joined(parts) + [] == Joined(parts);
      }
      MissingMore(v, parts, part);
      parts := parts + [part];
    }
    sup.DidMore(w, h, es, v, Joined(parts));
  }

  lemma NoneHandled(v: World)
    ensures MissingHandled(v, []) && Joined([]) == []
  {
  }

  lemma PresentPart(svcs: seq<Service>, i: nat)
    requires i < |svcs| && !Orphaned(svcs[i])
    ensures SlotPart(svcs, i, [])
  {
  }

  lemma AllSame(a: seq<Service>)
    ensures AllHandled(a, a, 0)
  {
  }

  lemma PresentHandled(a: seq<Service>, b: seq<Service>, i: nat)
    requires AllHandled(a, b, i) && i < |a| && !Orphaned(b[i])
    ensures AllHandled(a, b, i + 1)
  {
  }
}
