/** What one call of `reap_children` does, as a relation on worlds, and why it leaves the running set closed. */
module Reaping {
  import opened Types
  import opened Machine
  import opened Ledger
  import opened Propagation

  predicate AllReaps(es: seq<Event>) {
    forall k :: 0 <= k < |es| ==> es[k].Reap?
  }

  /** What the exit of its main process at time `t`, reported by `status`, makes of a service. */
  predicate HasExited(s: Service, status: int, t: int, u: Service) {
    var asked := s.stopping || s.once;
    var long := t - s.startedAt > 60;
    var restarts := if asked then s.restarts else if long then 0 else s.restarts + 1;
    var failed := !asked && !long && s.restarts >= 5;
    u == s.(pid := -1,
            state := if failed then Failed
                     else if status % 128 == 0 then Exited else if status % 128 == 127 then Down else Signaled,
            logStopping := s.logStopping || EndsLogger(s, status),
            once := false,
            restarts := restarts,
            restartAt := if asked || failed then 0x7fff_ffff_ffff_ffff else t + if restarts < 5 then 2 else 10)
  }

  /** The logger goes with a service that was being stopped, or is reported as stopped by a job control signal. */
  predicate EndsLogger(s: Service, status: int) {
    s.logPid > 0 && (s.stopping || status % 128 == 127)
  }

  /** The exit of a main process: the bookkeeping, and SIGTERM to the logger when it goes too. */
  lemma MainExit(w: World, e: Event, i: nat)
    requires Legal(w, e) && e.Reap? && LoggerOf(w.svcs, e.pid).None? && MainOf(w.svcs, e.pid) == Some(i)
    ensures var s, v := w.svcs[i], Step(w, e);
            && HasExited(s, e.status, e.at / 1000, v.svcs[i])
            && v.sent == w.sent + (if EndsLogger(s, e.status) then [Signal(s.logPid, 15, false)] else [])
            && forall j :: 0 <= j < |w.svcs| && j != i ==> v.svcs[j] == w.svcs[j]
  {
    hide Handles, AfterExit;
    ExitTaken(w.svcs[i], e.status, e.at / 1000);
  }

  lemma ExitTaken(s: Service, status: int, t: int)
    ensures HasExited(s, status, t, AfterExit(s, status, t))
  {
  }

  /** The exit of a logger: the slot is without one, and whether the service runs does not change. */
  lemma LoggerExit(w: World, e: Event, i: nat)
    requires Legal(w, e) && e.Reap? && LoggerOf(w.svcs, e.pid) == Some(i)
    ensures var s, v := w.svcs[i], Step(w, e);
            && v.svcs == w.svcs[i := s.(logPid := -1, logState := Down, logStopping := false)] && v.sent == w.sent
  {
    hide Handles;
  }

  /** A main process has ended without having been told to. */
  predicate Unrequested(w: World, e: Event) {
    e.Reap? && LoggerOf(w.svcs, e.pid).None? && (var k := MainOf(w.svcs, e.pid); k.Some? && !w.svcs[k.value].stopping)
  }

  predicate SomeUnrequested(w: World, es: seq<Event>)
    requires LegalRun(w, es)
    decreases |es|
  {
    es != [] && (SomeUnrequested(w, es[..|es| - 1]) || Unrequested(Run(w, es[..|es| - 1]), es[|es| - 1]))
  }

  lemma NoReaps(w: World)
    ensures AllReaps([]) && LegalRun(w, []) && Run(w, []) == w && !SomeUnrequested(w, [])
  {
  }

  lemma OneMoreReap(w: World, es: seq<Event>, e: Event)
    requires LegalRun(w, es) && Legal(Run(w, es), e) && AllReaps(es) && e.Reap?
    ensures AllReaps(es + [e]) && LegalRun(w, es + [e])
    ensures SomeUnrequested(w, es + [e]) <==> SomeUnrequested(w, es) || Unrequested(Run(w, es), e)
  {
    hide Legal, Step, Unrequested;
    assert (es + [e])[..|es|] == es;
  }

  /** A running service that was started with a logger and has it no more. */
  predicate LacksLogger(s: Service) {
    s.active && s.hasLog && s.logPid <= 0 && s.pid > 0 && s.state == Running && !s.stopping
  }

  /** All the services whose logger is gone, each listed once. */
  ghost predicate AllOrphans(svcs: seq<Service>, xs: seq<nat>) {
    && Distinct(xs) && (forall k :: 0 <= k < |xs| ==> xs[k] < |svcs|)
    && forall i: nat :: i < |svcs| ==> (i in Members(xs) <==> LacksLogger(svcs[i]))
  }

  predicate NoneLacksLogger(svcs: seq<Service>) {
    forall i :: 0 <= i < |svcs| ==> !LacksLogger(svcs[i])
  }

  lemma NoOrphans(svcs: seq<Service>, orphans: seq<nat>)
    requires NoneLacksLogger(svcs) && AllOrphans(svcs, orphans)
    ensures orphans == []
  {
    FirstMember(orphans);
  }

  lemma FirstMember(xs: seq<nat>)
    ensures xs != [] ==> xs[0] in Members(xs)
  {
  }

  /** Children are reaped; then what an unrequested exit has doomed is stopped; then what lost its logger. */
  ghost predicate ReapPhase(w: World, reaps: seq<Event>, doomed: seq<nat>, orphans: seq<nat>) {
    && AllReaps(reaps) && LegalRun(w, reaps)
    && (if SomeUnrequested(w, reaps) then AllDoomed(Run(w, reaps).svcs, doomed) else doomed == [])
    && AllOrphans(Marked(Run(w, reaps).svcs, Members(doomed)), orphans)
  }

  /** The steps of a call of `reap_children`: when nothing waits any more, the stops follow. */
  function ReapEvents(reaps: seq<Event>, idle: int, doomed: seq<nat>, orphans: seq<nat>): seq<Event> {
    reaps + [Idle(idle)] + Terminations(doomed, LostDependency) + Terminations(orphans, LostLogger)
  }

  lemma OnlyReaps(reaps: seq<Event>, idle: int)
    ensures ReapEvents(reaps, idle, [], []) == reaps + [Idle(idle)]
  {
    assert |Terminations([], LostDependency)| == |Terminations([], LostLogger)| == 0;
  }

  lemma PhaseJoined(es: seq<Event>, reaps: seq<Event>, idle: int, doomed: seq<nat>, orphans: seq<nat>)
    ensures es + (reaps + [Idle(idle)]) + Terminations(doomed, LostDependency) + Terminations(orphans, LostLogger)
         == es + ReapEvents(reaps, idle, doomed, orphans)
    ensures es == es + Terminations([], LostDependency)
  {
    hide Terminations;
    assert |Terminations([], LostDependency)| == 0;
    var a, b, c := reaps + [Idle(idle)], Terminations(doomed, LostDependency), Terminations(orphans, LostLogger);
    assert es + a + b + c == es + (a + b + c);
  }

  ghost function AfterReapPhase(w: World, reaps: seq<Event>, doomed: seq<nat>, orphans: seq<nat>): seq<Service>
    requires LegalRun(w, reaps)
  {
    Marked(Marked(Run(w, reaps).svcs, Members(doomed)), Members(orphans))
  }

  // ---------------------------------------------------------------- termination

  ghost function Live(svcs: seq<Service>): set<nat> {
    set i: nat | i < |svcs| && svcs[i].active && svcs[i].pid > 0
  }

  ghost function ReapMeasure(w: World): nat {
    |w.children| + |Live(w.svcs)|
  }

  lemma LiveSame(svcs: seq<Service>, i: nat, s: Service)
    requires i < |svcs| && svcs[i].active && s.active && Proc(s, Main) == Proc(svcs[i], Main)
    ensures Live(svcs[i := s]) == Live(svcs)
  {
  }

  lemma LiveLess(svcs: seq<Service>, i: nat, s: Service)
    requires i < |svcs| && Proc(s, Main) <= 0 < Proc(svcs[i], Main) && s.active
    ensures |Live(svcs[i := s])| == |Live(svcs)| - 1
  {
    assert Live(svcs[i := s]) == Live(svcs) - {i};
    assert i in Live(svcs);
  }

  /** A reaped main process may leave a finish script behind, but no process leaves two things to reap. */
  lemma ReapShrinks(w: World, e: Event)
    requires Inv(w) && Legal(w, e) && e.Reap?
    ensures ReapMeasure(Step(w, e)) < ReapMeasure(w)
  {
    var w' := Step(w, e);
    var k := Target(w, e);
    assert w'.children == w.children - {e.pid} + Just(e.finish);
    assert |w.children - {e.pid}| == |w.children| - 1;
    if k.Some? {
      ReapSlot(w, e);
      var (i, s) := k.value;
      hide Inv, AfterExit, AfterLoggerExit, Handles, Sends, SlotOk;
      assert w'.svcs == w.svcs[i := s];
      if LoggerOf(w.svcs, e.pid).Some? {
        LiveSame(w.svcs, i, s);
      } else {
        LiveLess(w.svcs, i, s);
        assert |w'.children| <= |w.children - {e.pid}| + 1;
      }
    }
  }

  // ---------------------------------------------------------------- closedness

  lemma ReapStates(w: World, e: Event, i: nat)
    requires Inv(w) && Legal(w, e) && e.Reap? && i < |w.svcs|
    ensures var t := Step(w, e).svcs;
            && t[i].active == w.svcs[i].active && t[i].name == w.svcs[i].name && t[i].deps == w.svcs[i].deps
            && (t[i].state == w.svcs[i].state
                || (Target(w, e).Some? && Target(w, e).value.0 == i && LoggerOf(w.svcs, e.pid).None?))
            && (t[i].state == Running ==> w.svcs[i].state == Running)
  {
    hide Handles, Sends, Inv, AfterExit, AfterLoggerExit, ChildrenAfter, ClockAfter;
    ExitStates(w.svcs[i], e.status, Seconds(e.at));
  }

  lemma ExitStates(s: Service, status: int, t: int)
    ensures var s' := AfterExit(s, status, t);
            s'.name == s.name && s'.deps == s.deps && s'.active == s.active && s'.state != Running
    ensures var s' := AfterLoggerExit(s);
            s'.name == s.name && s'.deps == s.deps && s'.active == s.active && s'.state == s.state
  {
  }

  /** A reaped process that had been told to stop was supporting nobody. */
  lemma RequestedExitKeepsClosed(w: World, e: Event)
    requires Inv(w) && Legal(w, e) && e.Reap? && Closed(w.svcs) && !Unrequested(w, e)
    ensures Closed(Step(w, e).svcs)
  {
    var t := Step(w, e).svcs;
    forall i | 0 <= i < |t| ensures On(t, i) <==> On(w.svcs, i) {
      ReapStates(w, e, i);
      assert SlotOk(w.svcs[i]);
    }
    assert SameNames(w.svcs, t) by {
      forall i | 0 <= i < |t|
        ensures w.svcs[i].active == t[i].active && w.svcs[i].name == t[i].name && w.svcs[i].deps == t[i].deps
      {
        ReapStates(w, e, i);
      }
    }
    SameRunning(w.svcs, t);
  }

  /** Closedness depends on names, dependencies and who is running only. */
  lemma SameRunning(a: seq<Service>, b: seq<Service>)
    requires SameNames(a, b) && Closed(a)
    requires forall i :: 0 <= i < |a| ==> (On(b, i) <==> On(a, i))
    ensures Closed(b)
  {
    forall i | On(b, i) ensures DepsSatisfied(b[i], b) {
      forall d | d in b[i].deps ensures Up(b, d) {
        FindByNameSame(a, b, d.name);
        assert On(a, i) && Up(a, d);
        var k := FindByName(a, d.name);
        assert k.Some? ==> (On(b, k.value) <==> On(a, k.value));
      }
    }
  }

  lemma {:induction false} RequestedExitsKeepClosed(w: World, es: seq<Event>)
    requires Inv(w) && LegalRun(w, es) && AllReaps(es) && Closed(w.svcs) && !SomeUnrequested(w, es)
    ensures Closed(Run(w, es).svcs)
    decreases |es|
  {
    if es != [] {
      RequestedExitsKeepClosed(w, es[..|es| - 1]);
      RunKeeps(w, es[..|es| - 1]);
      hide Step, Legal, Inv, Closed, Unrequested;
      RequestedExitKeepsClosed(Run(w, es[..|es| - 1]), es[|es| - 1]);
    }
  }

  /** Some running service outside `gone` hard-depends on a service in `gone`. */
  ghost predicate LeavesDependents(svcs: seq<Service>, gone: set<nat>) {
    exists j: nat, k: nat :: On(svcs, j) && j !in gone && k in gone && Needs(svcs, j, k)
  }

  lemma MarkedOn(svcs: seq<Service>, gone: set<nat>, j: int)
    ensures On(Marked(svcs, gone), j) <==> On(svcs, j) && j !in gone
  {
  }

  lemma MarkedSatisfied(svcs: seq<Service>, gone: set<nat>, j: nat)
    requires j < |svcs| && j !in gone && DepsSatisfied(svcs[j], svcs)
    ensures DepsSatisfied(svcs[j], Marked(svcs, gone)) <==> !exists k: nat :: k in gone && Needs(svcs, j, k)
  {
    var t := Marked(svcs, gone);
    if k: nat :| k in gone && Needs(svcs, j, k) {
      var d :| d in svcs[j].deps && !d.soft && FindByName(svcs, d.name) == Some(k);
      MarkedNames(svcs, gone, d.name);
      assert !Up(t, d);
    } else {
      forall d | d in svcs[j].deps ensures Up(t, d) {
        MarkedNames(svcs, gone, d.name);
        assert Up(svcs, d);
        if !d.soft {
          assert Needs(svcs, j, FindByName(svcs, d.name).value);
        }
      }
    }
  }

  /** Stopping some running services leaves the running set closed exactly when none of the others depends on them. */
  lemma MarkedClosedIff(svcs: seq<Service>, gone: set<nat>)
    requires Closed(svcs)
    ensures Closed(Marked(svcs, gone)) <==> !LeavesDependents(svcs, gone)
  {
    hide Needs, DepsSatisfied, Marked;
    var t := Marked(svcs, gone);
    assert |t| == |svcs|;
    forall j: nat | j < |svcs| && On(t, j)
      ensures DepsSatisfied(t[j], t) <==> !exists k: nat :: k in gone && Needs(svcs, j, k)
    {
      MarkedOn(svcs, gone, j);
      MarkedSatisfied(svcs, gone, j);
    }
    if LeavesDependents(svcs, gone) {
      var j: nat, k: nat :| On(svcs, j) && j !in gone && k in gone && Needs(svcs, j, k);
      MarkedOn(svcs, gone, j);
      assert On(t, j) && !DepsSatisfied(t[j], t);
    } else {
      forall j: nat | On(t, j) ensures DepsSatisfied(t[j], t) {
        MarkedOn(svcs, gone, j);
      }
    }
  }

  /**
   Crash propagation: when a reaping pass has seen an unrequested exit, or the running set was closed before
   it, the running set is closed after it exactly when none of the services then stopped for want of their
   logger leaves a running dependent behind.
   */
  lemma ReapPhaseClosed(w: World, reaps: seq<Event>, doomed: seq<nat>, orphans: seq<nat>)
    requires Inv(w) && ReapPhase(w, reaps, doomed, orphans)
    requires Closed(w.svcs) || SomeUnrequested(w, reaps)
    ensures var m := Marked(Run(w, reaps).svcs, Members(doomed));
            Closed(AfterReapPhase(w, reaps, doomed, orphans)) <==> !LeavesDependents(m, Members(orphans))
  {
    hide Legal, Step, LegalRun, Run, Closed, Needs, LeavesDependents, AllOrphans;
    var m := Run(w, reaps).svcs;
    RunKeeps(w, reaps);
    if SomeUnrequested(w, reaps) {
      AllDoomedClosed(m, doomed);
    } else {
      RequestedExitsKeepClosed(w, reaps);
      NoneMarked(m);
    }
    MarkedClosedIff(Marked(m, Members(doomed)), Members(orphans));
  }

  lemma NoneMarked(m: seq<Service>)
    ensures Marked(m, Members([])) == m
  {
  }

  /** Stopping all the doomed services closes the running set. */
  lemma AllDoomedClosed(svcs: seq<Service>, doomed: seq<nat>)
    requires Lifecycle(svcs) && AllDoomed(svcs, doomed)
    ensures Closed(Marked(svcs, Members(doomed)))
  {
    var gone := Members(doomed);
    var t := Marked(svcs, gone);
    forall i: nat | i < |svcs| ensures !Stranded(t, i) {
      if Stranded(t, i) {
        StrandedIsDoomed(svcs, gone, i);
      }
    }
    NobodyStranded(svcs, gone);
  }
}
