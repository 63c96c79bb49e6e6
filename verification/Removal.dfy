/**
 Which dependents of removed services stay up: `handle_missing_services` propagates before each stop and not after
 the last, so of all the services it has told to stop only the last can leave running dependents behind.
 */
module Removal {
  import opened Types
  import opened Machine
  import opened Ledger
  import opened Propagation
  import opened Reaping
  import opened Closure
  import opened Drains
  import opened Scan

  /** Slot `k` is told to stop when its turn comes. */
  predicate StopsAt(svcs: seq<Service>, k: nat) {
    k < |svcs| && Orphaned(svcs[k]) && svcs[k].pid > 0 && !svcs[k].stopping
  }

  /** The running services that lack a hard dependency are those that need slot `z`. */
  ghost predicate Loose(t: seq<Service>, z: Option<nat>) {
    forall j: nat :: On(t, j) ==> (DepsSatisfied(t[j], t) <==> !(z.Some? && Needs(t, j, z.value)))
  }

  /** The last slot told to stop, unless it was not running or has been stopped by the propagation before it. */
  ghost function Leaves(svcs: seq<Service>, k: nat): Option<nat> {
    if On(svcs, k) && !Doomed(svcs, k) then Some(k) else None
  }

  // ---------------------------------------------------------------- the turn of a slot that is told to stop

  lemma NeedsSame(a: seq<Service>, b: seq<Service>, j: nat, z: nat)
    requires SameNames(a, b)
    ensures Needs(a, j, z) <==> Needs(b, j, z)
  {
    if j < |a| {
      forall d | d in a[j].deps ensures FindByName(a, d.name) == FindByName(b, d.name) {
        FindByNameSame(a, b, d.name);
      }
    }
  }

  lemma SatisfiedSame(a: seq<Service>, b: seq<Service>, j: nat)
    requires SameNames(a, b) && j < |a| && forall i: nat :: i < |a| ==> (On(a, i) <==> On(b, i))
    ensures DepsSatisfied(a[j], a) <==> DepsSatisfied(b[j], b)
  {
    forall d | d in a[j].deps ensures Up(a, d) <==> Up(b, d) {
      FindByNameSame(a, b, d.name);
      var k := FindByName(a, d.name);
      assert k.Some? ==> (On(a, k.value) <==> On(b, k.value));
    }
  }

  /** What lacks a dependency is a matter of names, dependencies and who is running. */
  lemma LooseSame(a: seq<Service>, b: seq<Service>, z: Option<nat>)
    requires Loose(a, z) && SameNames(a, b) && forall i: nat :: i < |a| ==> (On(a, i) <==> On(b, i))
    ensures Loose(b, z)
  {
    hide Needs, DepsSatisfied;
    forall j: nat | On(b, j) ensures DepsSatisfied(b[j], b) <==> !(z.Some? && Needs(b, j, z.value)) {
      assert On(a, j);
      SatisfiedSame(a, b, j);
      if z.Some? {
        NeedsSame(a, b, j, z.value);
      }
    }
  }

  lemma MarkedSameNames(svcs: seq<Service>, gone: set<nat>)
    ensures SameNames(svcs, Marked(svcs, gone))
  {
  }

  /** Propagation leaves nobody stranded; then one more stop strands exactly its own dependents. */
  lemma StopLoose(svcs: seq<Service>, victims: seq<nat>, k: nat)
    requires Lifecycle(svcs) && AllDoomed(svcs, victims) && k < |svcs|
    ensures Loose(Marked(Marked(svcs, Members(victims)), {k}), Leaves(svcs, k))
  {
    hide Needs, DepsSatisfied, Doomed, Marked;
    var m := Marked(svcs, Members(victims));
    var t := Marked(m, {k});
    AllDoomedClosed(svcs, victims);
    MarkedOn(svcs, Members(victims), k);
    MarkedSameNames(m, {k});
    forall j: nat | On(t, j) ensures DepsSatisfied(t[j], t) <==> !(On(m, k) && Needs(t, j, k)) {
      MarkedOn(m, {k}, j);
      NeedsSame(m, t, j, k);
      MarkedSatisfied(m, {k}, j);
      if !On(m, k) {
        NotRunningNotNeeded(m, j, k);
      }
    }
  }

  lemma NotRunningNotNeeded(m: seq<Service>, j: nat, k: nat)
    requires j < |m| && DepsSatisfied(m[j], m) && !On(m, k)
    ensures !Needs(m, j, k)
  {
    forall d | d in m[j].deps && !d.soft ensures FindByName(m, d.name) != Some(k) {
      assert Up(m, d);
    }
  }

  lemma LoggerStep(u: World, k: nat)
    requires Legal(u, Do(k, TerminateLogger))
    ensures k < |u.svcs| && Step(u, Do(k, TerminateLogger)).svcs == u.svcs[k := LoggerStopped(u.svcs[k])]
  {
    hide Handles, LoggerStopped;
  }

  lemma LoggerSame(u: World, s: Service, k: nat)
    requires LegalRun(u, LoggerSteps(s, k)) && k < |u.svcs|
    ensures SameNames(u.svcs, Run(u, LoggerSteps(s, k)).svcs)
    ensures forall i: nat :: i < |u.svcs| ==> (On(u.svcs, i) <==> On(Run(u, LoggerSteps(s, k)).svcs, i))
    ensures var t := Run(u, LoggerSteps(s, k)).svcs;
            forall i :: 0 <= i < |t| ==>
              t[i].active == u.svcs[i].active && t[i].name == u.svcs[i].name && t[i].state == u.svcs[i].state
  {
    var es := LoggerSteps(s, k);
    EmptyRun(u);
    if es != [] {
      assert es[..0] == [] && es[0] == Do(k, TerminateLogger);
      LoggerStep(u, k);
    }
    hide Legal, Step;
  }

  lemma StopsMark(u: World, victims: seq<nat>, k: nat)
    requires k < |u.svcs| && AllDoomed(u.svcs, victims)
    requires LegalRun(u, Terminations(victims, LostDependency) + [Do(k, Terminate(Removed))])
    ensures Run(u, Terminations(victims, LostDependency) + [Do(k, Terminate(Removed))]).svcs
         == Marked(Marked(u.svcs, Members(victims)), {k})
  {
    hide Legal, Step, Doomed, LegalRun, Run, Terminations;
    var ts, e := Terminations(victims, LostDependency), Do(k, Terminate(Removed));
    RunSplit(u, ts, [e]);
    TerminationsMark(u, victims, LostDependency);
    OneTerminate(Run(u, ts), k);
    MarkedMore(Marked(u.svcs, Members(victims)), {}, k);
    MarkedNone(Marked(u.svcs, Members(victims)));
    assert {} + {k} == {k};
  }

  lemma MarkedNone(m: seq<Service>)
    ensures Marked(m, {}) == m
  {
  }

  lemma OneTerminate(u: World, k: nat)
    requires LegalRun(u, [Do(k, Terminate(Removed))])
    ensures k < |u.svcs| && Run(u, [Do(k, Terminate(Removed))]).svcs == u.svcs[k := Stopped(u.svcs[k])]
  {
    assert [Do(k, Terminate(Removed))][..0] == [];
    EmptyRun(u);
    assert Legal(u, Do(k, Terminate(Removed)));
    TerminateMarks(u, k, Removed);
    hide Legal, Step;
  }

  lemma PartStops(u: World, k: nat, part: seq<Event>)
    requires Inv(u) && LegalRun(u, part) && SlotPart(u.svcs, k, part) && StopsAt(u.svcs, k)
    ensures Loose(Run(u, part).svcs, Leaves(u.svcs, k)) && SameNames(u.svcs, Run(u, part).svcs)
  {
    hide Legal, Step, LegalRun, Run, Needs, DepsSatisfied, Doomed, Loose, Leaves, ProcLedger, FdLedger;
    hide Marked, AllDoomed;
    hide LoggerSteps, Terminations, SlotOk;
    var stops :| StopsAfter(u.svcs, k, stops) && part == stops + LoggerSteps(u.svcs[k], k) + FreeSteps(u.svcs[k], k);
    var victims :| AllDoomed(u.svcs, victims)
                   && stops == Terminations(victims, LostDependency) + [Do(k, Terminate(Removed))];
    assert part == stops + LoggerSteps(u.svcs[k], k);
    RunSplit(u, stops, LoggerSteps(u.svcs[k], k));
    StopsMark(u, victims, k);
    StopLoose(u.svcs, victims, k);
    var t := Run(u, stops);
    MarkedSameNames(u.svcs, Members(victims));
    MarkedSameNames(Marked(u.svcs, Members(victims)), {k});
    LoggerSame(t, u.svcs[k], k);
    LooseSame(t.svcs, Run(u, part).svcs, Leaves(u.svcs, k));
  }

  // ---------------------------------------------------------------- the turns of the others

  lemma FreeStep(u: World, k: nat)
    requires Inv(u) && Legal(u, Do(k, Free))
    ensures k < |u.svcs| && u.svcs[k].active && !On(u.svcs, k)
    ensures Step(u, Do(k, Free)).svcs == u.svcs[k := SlotAfter(u.svcs[k], Free)]
    ensures !SlotAfter(u.svcs[k], Free).active && SlotAfter(u.svcs[k], Free).state == Down
  {
    hide Handles, ProcLedger, FdLedger;
    assert SlotOk(u.svcs[k]);
  }

  lemma FindAfterFree(svcs: seq<Service>, k: nat, s: Service, name: Text)
    requires UniqueNames(svcs) && k < |svcs| && svcs[k].active && !s.active
    ensures FindByName(svcs[k := s], name) == if name == svcs[k].name then None else FindByName(svcs, name)
    ensures name == svcs[k].name ==> FindByName(svcs, name) == Some(k)
  {
    var t := svcs[k := s];
    assert Named(svcs[k], svcs[k].name);
    forall j | 0 <= j < |svcs| && j != k ensures Named(t[j], name) == Named(svcs[j], name) {
    }
  }

  lemma SatisfiedAfterFree(svcs: seq<Service>, k: nat, s: Service, j: nat)
    requires UniqueNames(svcs) && k < |svcs| && svcs[k].active && !On(svcs, k) && !s.active && j < |svcs| && j != k
    ensures DepsSatisfied(svcs[j], svcs[k := s]) <==> DepsSatisfied(svcs[j], svcs)
    ensures forall z: nat :: z != k ==> (Needs(svcs[k := s], j, z) <==> Needs(svcs, j, z))
  {
    var t := svcs[k := s];
    forall d | d in svcs[j].deps ensures Up(t, d) <==> Up(svcs, d) {
      FindAfterFree(svcs, k, s, d.name);
    }
    forall z: nat | z != k ensures Needs(t, j, z) <==> Needs(svcs, j, z) {
      forall d | d in svcs[j].deps ensures FindByName(t, d.name) == Some(z) <==> FindByName(svcs, d.name) == Some(z) {
        FindAfterFree(svcs, k, s, d.name);
      }
    }
  }

  /** Giving up a slot that is not running changes nobody's dependencies. */
  lemma FreeLoose(svcs: seq<Service>, k: nat, s: Service, z: Option<nat>)
    requires Loose(svcs, z) && UniqueNames(svcs) && k < |svcs| && svcs[k].active && !On(svcs, k)
    requires !s.active && s.state == Down && (z.Some? ==> z.value != k)
    ensures Loose(svcs[k := s], z) && UniqueNames(svcs[k := s])
  {
    hide Needs, DepsSatisfied;
    var t := svcs[k := s];
    forall j: nat | On(t, j) ensures DepsSatisfied(t[j], t) <==> !(z.Some? && Needs(t, j, z.value)) {
      assert j != k && On(svcs, j);
      SatisfiedAfterFree(svcs, k, s, j);
    }
  }

  lemma FreeSame(u: World, s: Service, k: nat, z: Option<nat>)
    requires Inv(u) && LegalRun(u, FreeSteps(s, k)) && k < |u.svcs|
    requires Loose(u.svcs, z) && UniqueNames(u.svcs) && (z.Some? ==> z.value != k)
    ensures Loose(Run(u, FreeSteps(s, k)).svcs, z) && UniqueNames(Run(u, FreeSteps(s, k)).svcs)
  {
    hide Needs, DepsSatisfied, Loose, UniqueNames, Inv;
    var es := FreeSteps(s, k);
    EmptyRun(u);
    if es != [] {
      assert es[..0] == [] && es[0] == Do(k, Free);
      FreeStep(u, k);
      FreeLoose(u.svcs, k, SlotAfter(u.svcs[k], Free), z);
    }
    hide Legal, Step;
  }

  lemma UniqueSame(a: seq<Service>, b: seq<Service>)
    requires SameNames(a, b) && UniqueNames(a)
    ensures UniqueNames(b)
  {
  }

  lemma PartQuiet(u: World, k: nat, part: seq<Event>, z: Option<nat>)
    requires Inv(u) && LegalRun(u, part) && SlotPart(u.svcs, k, part) && !StopsAt(u.svcs, k)
    requires Loose(u.svcs, z) && UniqueNames(u.svcs) && (z.Some? ==> z.value != k)
    ensures Loose(Run(u, part).svcs, z) && UniqueNames(Run(u, part).svcs)
  {
    hide Legal, Step, LegalRun, Run, Needs, DepsSatisfied, Loose, Inv, LoggerSteps, FreeSteps, StopsAfter;
    hide UniqueNames;
    if part == [] {
      EmptyRun(u);
    } else {
      assert part == LoggerSteps(u.svcs[k], k) + FreeSteps(u.svcs[k], k);
      RunSplit(u, LoggerSteps(u.svcs[k], k), FreeSteps(u.svcs[k], k));
      var v := Run(u, LoggerSteps(u.svcs[k], k));
      RunKeeps(u, LoggerSteps(u.svcs[k], k));
      LoggerSame(u, u.svcs[k], k);
      LooseSame(u.svcs, v.svcs, z);
      UniqueSame(u.svcs, v.svcs);
      FreeSame(v, u.svcs[k], k, z);
    }
  }

  // ---------------------------------------------------------------- all turns

  lemma PrefixHandled(v: World, parts: seq<seq<Event>>, n: nat)
    requires MissingHandled(v, parts) && n <= |parts| && LegalRun(v, Joined(parts[..n]))
    ensures n < |parts| ==> SlotPart(Run(v, Joined(parts[..n])).svcs, n, parts[n])
    ensures n > 0 ==> LegalRun(v, Joined(parts[..n - 1])) && LegalRun(Run(v, Joined(parts[..n - 1])), parts[n - 1])
                      && Run(v, Joined(parts[..n])) == Run(Run(v, Joined(parts[..n - 1])), parts[n - 1])
  {
    hide Legal, Step, LegalRun, Run, SlotPart, Joined;
    if n > 0 {
      JoinedTake(parts, n - 1);
      RunSplit(v, Joined(parts[..n - 1]), parts[n - 1]);
    }
  }

  /** Names stay unique from turn to turn. */
  lemma {:induction false} NamesStay(v: World, parts: seq<seq<Event>>, n: nat)
    requires Inv(v) && UniqueNames(v.svcs) && MissingHandled(v, parts) && n <= |parts|
             && LegalRun(v, Joined(parts[..n]))
    ensures UniqueNames(Run(v, Joined(parts[..n])).svcs)
    decreases n
  {
    hide Legal, Step, LegalRun, Run, SlotPart, Inv, UniqueNames, MissingHandled;
    if n > 0 {
      PrefixHandled(v, parts, n);
      NamesStay(v, parts, n - 1);
      var u := Run(v, Joined(parts[..n - 1]));
      RunKeeps(v, Joined(parts[..n - 1]));
      PrefixHandled(v, parts, n - 1);
      PartNames(u, n - 1, parts[n - 1]);
    } else {
      assert parts[..0] == [];
      EmptyRun(v);
    }
  }

  lemma PartNames(u: World, k: nat, part: seq<Event>)
    requires Inv(u) && LegalRun(u, part) && SlotPart(u.svcs, k, part) && UniqueNames(u.svcs)
    ensures UniqueNames(Run(u, part).svcs)
  {
    hide Legal, Step, LegalRun, Run, SlotPart, Inv, Loose, UniqueNames, Leaves;
    if StopsAt(u.svcs, k) {
      PartStops(u, k, part);
      UniqueSame(u.svcs, Run(u, part).svcs);
    } else {
      QuietNames(u, k, part);
    }
  }

  lemma QuietNames(u: World, k: nat, part: seq<Event>)
    requires Inv(u) && LegalRun(u, part) && SlotPart(u.svcs, k, part) && !StopsAt(u.svcs, k) && UniqueNames(u.svcs)
    ensures UniqueNames(Run(u, part).svcs)
  {
    hide Legal, Step, LegalRun, Run, Inv, LoggerSteps, FreeSteps, StopsAfter, UniqueNames;
    if part == [] {
      EmptyRun(u);
    } else {
      assert part == LoggerSteps(u.svcs[k], k) + FreeSteps(u.svcs[k], k);
      RunSplit(u, LoggerSteps(u.svcs[k], k), FreeSteps(u.svcs[k], k));
      var v := Run(u, LoggerSteps(u.svcs[k], k));
      RunKeeps(u, LoggerSteps(u.svcs[k], k));
      LoggerSame(u, u.svcs[k], k);
      UniqueSame(u.svcs, v.svcs);
      FreeNames(v, u.svcs[k], k);
    }
  }

  lemma FreeNames(u: World, s: Service, k: nat)
    requires Inv(u) && LegalRun(u, FreeSteps(s, k)) && k < |u.svcs| && UniqueNames(u.svcs)
    ensures UniqueNames(Run(u, FreeSteps(s, k)).svcs)
  {
    var es := FreeSteps(s, k);
    EmptyRun(u);
    hide Inv;
    if es != [] {
      assert es[..0] == [] && es[0] == Do(k, Free);
      FreeStep(u, k);
    }
    hide Legal, Step;
  }

  /** Slot `z` is the last of those told to stop. */
  ghost predicate LastStop(v: World, parts: seq<seq<Event>>, z: nat) {
    && z < |parts| && (forall k :: 0 <= k <= |parts| ==> LegalRun(v, Joined(parts[..k])))
    && StopsAt(Run(v, Joined(parts[..z])).svcs, z)
    && forall k :: z < k < |parts| ==> !StopsAt(Run(v, Joined(parts[..k])).svcs, k)
  }

  lemma {:induction false} LooseAfter(v: World, parts: seq<seq<Event>>, z: nat, n: nat)
    requires Inv(v) && UniqueNames(v.svcs) && MissingHandled(v, parts) && LastStop(v, parts, z) && z < n <= |parts|
    ensures Loose(Run(v, Joined(parts[..n])).svcs, Leaves(Run(v, Joined(parts[..z])).svcs, z))
    decreases n
  {
    hide Legal, Step, LegalRun, Run, SlotPart, Inv, Loose, UniqueNames, Doomed, Joined, StopsAt;
    var u := Run(v, Joined(parts[..n - 1]));
    PrefixHandled(v, parts, n);
    PrefixHandled(v, parts, n - 1);
    RunKeeps(v, Joined(parts[..n - 1]));
    if n == z + 1 {
      PartStops(u, z, parts[z]);
    } else {
      LooseAfter(v, parts, z, n - 1);
      NamesStay(v, parts, n - 1);
      PartQuiet(u, n - 1, parts[n - 1], Leaves(Run(v, Joined(parts[..z])).svcs, z));
    }
  }

  /**
   After `handle_missing_services` has told at least one service to stop, the running services that lack a hard
   dependency are exactly those that need the last of these, and none at all if that one was no longer running or
   had lost a dependency itself. The dependents of all the others have been stopped.
   */
  lemma RemovedLeave(v: World, parts: seq<seq<Event>>, z: nat)
    requires Inv(v) && UniqueNames(v.svcs) && MissingHandled(v, parts) && LastStop(v, parts, z)
    ensures LegalRun(v, Joined(parts)) && LegalRun(v, Joined(parts[..z]))
    ensures var t, u := Run(v, Joined(parts)).svcs, Run(v, Joined(parts[..z])).svcs;
            forall j: nat :: On(t, j) ==>
              (!DepsSatisfied(t[j], t) <==> On(u, z) && !Doomed(u, z) && Needs(t, j, z))
  {
    hide Legal, Step, Run, Inv, UniqueNames, Doomed, Needs, DepsSatisfied, Joined, StopsAt, MissingHandled, LegalRun;
    assert parts[..|parts|] == parts;
    LooseAfter(v, parts, z, |parts|);
  }
}
