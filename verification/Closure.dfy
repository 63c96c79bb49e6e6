/**
 When every running service has its hard dependencies running: which steps keep it so, which break it and
 exactly when, and which sets of names can never run at all.
 */
module Closure {
  import opened Types
  import opened Machine
  import opened Ledger
  import opened Propagation
  import opened Reaping
  import opened Passes
  import opened BringUp

  /** Told to stop one after the other, the services of `xs` are marked and nothing else changes in the table. */
  lemma {:induction false} TerminationsMark(u: World, xs: seq<nat>, cause: Cause)
    requires LegalRun(u, Terminations(xs, cause)) && forall k :: 0 <= k < |xs| ==> xs[k] < |u.svcs|
    requires Distinct(xs)
    ensures Run(u, Terminations(xs, cause)).svcs == Marked(u.svcs, Members(xs))
    decreases |xs|
  {
    hide Step, Legal;
    if xs == [] {
      assert Members(xs) == {};
    } else {
      var ys, y := xs[..|xs| - 1], xs[|xs| - 1];
      var es := Terminations(xs, cause);
      assert es[..|es| - 1] == Terminations(ys, cause);
      TerminationsMark(u, ys, cause);
      MarkedMore(u.svcs, Members(ys), y);
      LastMember(xs);
      hide Members, Marked;
      TerminateMarks(Run(u, es[..|es| - 1]), y, cause);
    }
  }

  lemma LastMember(xs: seq<nat>)
    requires xs != [] && Distinct(xs)
    ensures var ys, y := xs[..|xs| - 1], xs[|xs| - 1]; Members(xs) == Members(ys) + {y} && y !in Members(ys)
  {
  }

  lemma TerminateMarks(w: World, i: nat, cause: Cause)
    requires Legal(w, Do(i, Terminate(cause)))
    ensures Step(w, Do(i, Terminate(cause))).svcs == w.svcs[i := Stopped(w.svcs[i])]
  {
    hide Allowed, Handles, Sends;
  }

  // ---------------------------------------------------------------- steps that keep the running set closed

  predicate FreshName(w: World, r: Registration) {
    FindByName(w.svcs, r.name) == None
  }

  /** Starts, new services under new names, `start`, `up`, `once` and `signal`, scanning, draining, time. */
  predicate Gentle(w: World, e: Event) {
    match e
    case Tick(_) => true
    case ScanOpen => true
    case Reap(_, _, _, _, _) => false
    case Idle(_) => true
    case Script(_) => true
    case Do(_, Cmd(c)) => c.Start? || c.GoUp? || c.Once? || c.Send?
    case Do(_, Register(r)) => FreshName(w, r)
    case Do(_, a) => a.Launch? || a.Defer? || a.Io? || a.ScanSeen? || a.TerminateLogger?
  }

  lemma CommandKeepsState(s: Service, c: Command)
    requires c.Start? || c.GoUp? || c.Once? || c.Send?
    ensures CommandAfter(s, c).state == s.state
  {
  }

  lemma GentleSlot(w: World, e: Event, i: nat)
    requires Inv(w) && Legal(w, e) && Gentle(w, e) && !StartEvent(e) && !(e.Do? && e.a.Register?) && i < |w.svcs|
    ensures Step(w, e).svcs[i].state == w.svcs[i].state
  {
    hide ProcLedger, FdLedger, Handles, CommandAfter, IoAfter, AfterLaunch, ChildrenAfter, ClockAfter, Sends;
    hide DepsSatisfied;
    if e.Do? && e.i == i {
      match e.a
      case Cmd(c) => CommandKeepsState(w.svcs[i], c);
      case Io(c, op) => IoStates(w.svcs[i], c, op);
      case _ =>
    }
  }

  /** A service registered under a new name changes nobody's dependencies. */
  lemma RegisterKeepsClosed(w: World, i: nat, r: Registration)
    requires Inv(w) && Legal(w, Do(i, Register(r))) && FreshName(w, r) && Closed(w.svcs)
    ensures Closed(Step(w, Do(i, Register(r))).svcs)
  {
    var t := Step(w, Do(i, Register(r))).svcs;
    assert t == w.svcs[i := Registered(r)];
    assert !w.svcs[i].active && SlotOk(w.svcs[i]);
    hide Inv, Step, Legal;
    forall j | On(t, j) ensures DepsSatisfied(t[j], t) {
      assert j != i && On(w.svcs, j);
      forall d | d in t[j].deps ensures Up(t, d) {
        assert Up(w.svcs, d);
        if !d.soft {
          var k := FindByName(w.svcs, d.name).value;
          assert Named(t[k], d.name);
          assert d.name != r.name;
          FindAfterRegister(w.svcs, i, r, d.name);
        }
      }
    }
  }

  lemma FindAfterRegister(svcs: seq<Service>, i: nat, r: Registration, name: Text)
    requires i < |svcs| && !svcs[i].active && name != r.name
    ensures FindByName(svcs[i := Registered(r)], name) == FindByName(svcs, name)
  {
    var t := svcs[i := Registered(r)];
    assert forall j :: 0 <= j < |svcs| ==> Named(t[j], name) == Named(svcs[j], name);
  }

  lemma GentleKeepsClosed(w: World, e: Event)
    requires Inv(w) && Legal(w, e) && Gentle(w, e) && Closed(w.svcs)
    ensures Closed(Step(w, e).svcs)
  {
    if e.Do? && e.a.Register? {
      RegisterKeepsClosed(w, e.i, e.a.r);
    } else if StartEvent(e) {
      StartKeepsClosed(w, e);
    } else {
      OnlyLaunchesStart(w, e);
      forall i: nat | i < |w.svcs| ensures On(Step(w, e).svcs, i) <==> On(w.svcs, i) {
        GentleSlot(w, e, i);
      }
      SameRunning(w.svcs, Step(w, e).svcs);
    }
  }

  predicate GentleRun(w: World, es: seq<Event>)
    requires LegalRun(w, es)
    decreases |es|
  {
    es == [] || (GentleRun(w, es[..|es| - 1]) && Gentle(Run(w, es[..|es| - 1]), es[|es| - 1]))
  }

  lemma {:induction false} GentleRunClosed(w: World, es: seq<Event>)
    requires Inv(w) && LegalRun(w, es) && GentleRun(w, es) && Closed(w.svcs)
    ensures Closed(Run(w, es).svcs)
    decreases |es|
  {
    if es != [] {
      GentleRunClosed(w, es[..|es| - 1]);
      RunKeeps(w, es[..|es| - 1]);
      hide Step, Legal, Inv, Closed, Gentle;
      GentleKeepsClosed(Run(w, es[..|es| - 1]), es[|es| - 1]);
    }
  }

  // ---------------------------------------------------------------- whole runs with crashes

  /** Either gentle steps, or one call of `reap_children`. */
  datatype Phase = Steps(es: seq<Event>) | Reaping(reaps: seq<Event>, idle: int, doomed: seq<nat>, orphans: seq<nat>)

  function PhaseEvents(p: Phase): seq<Event> {
    match p
    case Steps(es) => es
    case Reaping(reaps, idle, doomed, orphans) => ReapEvents(reaps, idle, doomed, orphans)
  }

  /** A call of `reap_children` may stop services for want of their logger that no other running service depends on. */
  ghost predicate PhaseOk(w: World, p: Phase) {
    && LegalRun(w, PhaseEvents(p))
    && match p
       case Steps(es) => GentleRun(w, es)
       case Reaping(reaps, idle, doomed, orphans) =>
         && ReapPhase(w, reaps, doomed, orphans)
         && !LeavesDependents(Marked(Run(w, reaps).svcs, Members(doomed)), Members(orphans))
  }

  lemma PhaseClosed(w: World, p: Phase)
    requires Inv(w) && PhaseOk(w, p) && Closed(w.svcs)
    ensures Closed(Run(w, PhaseEvents(p)).svcs)
  {
    hide Step, Legal, Inv, Needs, LeavesDependents, ReapPhase, GentleRun, Closed;
    match p
    case Steps(es) => GentleRunClosed(w, es);
    case Reaping(reaps, idle, doomed, orphans) =>
      ReapPhaseClosed(w, reaps, doomed, orphans);
      PhaseTable(w, reaps, idle, doomed, orphans);
  }

  lemma PhaseTable(w: World, reaps: seq<Event>, idle: int, doomed: seq<nat>, orphans: seq<nat>)
    requires ReapPhase(w, reaps, doomed, orphans) && LegalRun(w, ReapEvents(reaps, idle, doomed, orphans))
    ensures Run(w, ReapEvents(reaps, idle, doomed, orphans)).svcs == AfterReapPhase(w, reaps, doomed, orphans)
  {
    hide Step, Legal, LegalRun, Run, Needs, Closed, Doomed, Terminations;
    var ts, us := Terminations(doomed, LostDependency), Terminations(orphans, LostLogger);
    RunSplit(w, reaps + [Idle(idle)] + ts, us);
    RunSplit(w, reaps + [Idle(idle)], ts);
    RunSplit(w, reaps, [Idle(idle)]);
    var m := Run(w, reaps);
    IdleRun(m, idle);
    assert Distinct(doomed) && forall k :: 0 <= k < |doomed| ==> doomed[k] < |m.svcs|;
    TerminationsMark(m, doomed, LostDependency);
    TerminationsMark(Run(m, ts), orphans, LostLogger);
  }

  function PhasesEvents(ps: seq<Phase>): seq<Event> {
    if ps == [] then [] else PhasesEvents(ps[..|ps| - 1]) + PhaseEvents(ps[|ps| - 1])
  }

  ghost predicate PhasesOk(w: World, ps: seq<Phase>)
    decreases |ps|
  {
    ps != [] ==>
      && PhasesOk(w, ps[..|ps| - 1]) && LegalRun(w, PhasesEvents(ps[..|ps| - 1]))
      && PhaseOk(Run(w, PhasesEvents(ps[..|ps| - 1])), ps[|ps| - 1])
  }

  /**
   Crashes are contained: in every run made of starts, added services under new names, `start`, `up`, `once`
   and `signal` commands, scans, draining and calls of `reap_children`, whatever exits, every running service
   has all its hard dependencies running after every call and in between, as long as no service that is stopped
   for want of its logger leaves a running dependent behind.
   */
  lemma {:induction false} CrashesContained(w: World, ps: seq<Phase>)
    requires Inv(w) && PhasesOk(w, ps) && Closed(w.svcs)
    ensures LegalRun(w, PhasesEvents(ps)) && Closed(Run(w, PhasesEvents(ps)).svcs)
    decreases |ps|
  {
    if ps != [] {
      hide Step, Legal, Inv, Closed, PhaseOk;
      var c, p := ps[..|ps| - 1], ps[|ps| - 1];
      CrashesContained(w, c);
      var u := Run(w, PhasesEvents(c));
      RunKeeps(w, PhasesEvents(c));
      PhaseClosed(u, p);
      PhaseLegal(u, p);
      RunConcat(w, PhasesEvents(c), PhaseEvents(p));
    }
  }

  lemma PhaseLegal(u: World, p: Phase)
    requires PhaseOk(u, p)
    ensures LegalRun(u, PhaseEvents(p))
  {
  }

  // ---------------------------------------------------------------- operator stops

  /** Some other running service hard-depends on the service in slot `i`. */
  ghost predicate Depended(svcs: seq<Service>, i: nat) {
    exists j: nat :: j != i && On(svcs, j) && Needs(svcs, j, i)
  }

  /**
   `stop`, `restart` and `down` mark their target after any propagation, so they leave the running set closed
   exactly when the target was not running or no other running service hard-depends on it.
   */
  lemma StopClosedIff(w: World, i: nat, c: Command)
    requires Inv(w) && Legal(w, Do(i, Cmd(c))) && (c.Stop? || c.Restart? || c.GoDown?) && Closed(w.svcs)
    ensures Closed(Step(w, Do(i, Cmd(c))).svcs) <==> !(On(w.svcs, i) && Depended(w.svcs, i))
  {
    var t := Step(w, Do(i, Cmd(c))).svcs;
    OnlyLaunchesStart(w, Do(i, Cmd(c)));
    StoppedSlot(w, i, c);
    hide Step, Legal, Inv, Needs, DepsSatisfied;
    forall j: nat | On(t, j) ensures DepsSatisfied(t[j], t) <==> !(On(w.svcs, i) && Needs(w.svcs, j, i)) {
      assert On(w.svcs, j) && j != i && t[j] == w.svcs[j];
      StoppedDependency(w.svcs, t, i, j);
    }
    if On(w.svcs, i) && Depended(w.svcs, i) {
      var j: nat :| j != i && On(w.svcs, j) && Needs(w.svcs, j, i);
      assert On(t, j);
    }
  }

  lemma StoppedSlot(w: World, i: nat, c: Command)
    requires Inv(w) && Legal(w, Do(i, Cmd(c))) && (c.Stop? || c.Restart? || c.GoDown?)
    ensures var t := Step(w, Do(i, Cmd(c))).svcs;
            && !On(t, i)
            && forall j :: 0 <= j < |t| && j != i ==> t[j] == w.svcs[j]
  {
    assert SlotOk(w.svcs[i]);
    StoppingCommand(w.svcs[i], c);
    hide CommandAfter, Handles, Sends, ProcLedger, FdLedger;
  }

  lemma StoppingCommand(s: Service, c: Command)
    requires SlotOk(s) && (c.Stop? || c.Restart? || c.GoDown?)
    ensures CommandAfter(s, c).state != Running
  {
    match c
    case GoDown =>
    case _ =>
  }

  lemma StoppedDependency(a: seq<Service>, t: seq<Service>, i: nat, j: nat)
    requires SameNames(a, t) && i < |a| && j < |a| && t[j] == a[j] && DepsSatisfied(a[j], a) && !On(t, i)
    requires forall k :: 0 <= k < |t| && k != i ==> t[k] == a[k]
    ensures DepsSatisfied(t[j], t) <==> !(On(a, i) && Needs(a, j, i))
  {
    if On(a, i) && Needs(a, j, i) {
      var d :| d in a[j].deps && !d.soft && FindByName(a, d.name) == Some(i);
      FindByNameSame(a, t, d.name);
      assert !Up(t, d);
    } else {
      forall d | d in t[j].deps ensures Up(t, d) {
        assert Up(a, d);
        FindByNameSame(a, t, d.name);
        if !d.soft {
          assert FindByName(a, d.name) == Some(i) ==> Needs(a, j, i);
        }
      }
    }
  }

  // ---------------------------------------------------------------- names that can never run

  /** The service waits for something named in `names`. */
  predicate WaitsFor(deps: seq<Dependency>, names: set<Text>) {
    exists d :: d in deps && !d.soft && d.name in names
  }

  /** Each service named in `names` waits for something named in `names`, and none of them is running. */
  ghost predicate Deadlocked(svcs: seq<Service>, names: set<Text>) {
    forall i :: 0 <= i < |svcs| && svcs[i].active && svcs[i].name in names ==>
      svcs[i].state != Running && WaitsFor(svcs[i].deps, names)
  }

  predicate KeepsWaiting(es: seq<Event>, names: set<Text>) {
    forall k :: 0 <= k < |es| && es[k].Do? && es[k].a.Register? && es[k].a.r.name in names ==>
      WaitsFor(es[k].a.r.deps, names)
  }

  /** A deadlocked service finds no running dependency, so it is not launched, even on a `start` command. */
  lemma DeadlockedNotUp(svcs: seq<Service>, names: set<Text>, i: nat)
    requires Deadlocked(svcs, names) && i < |svcs| && svcs[i].active && svcs[i].name in names
    ensures !DepsSatisfied(svcs[i], svcs)
  {
    var d :| d in svcs[i].deps && !d.soft && d.name in names;
    assert !Up(svcs, d);
  }

  lemma StepDeadlocked(w: World, e: Event, names: set<Text>)
    requires Inv(w) && Legal(w, e) && Deadlocked(w.svcs, names)
    requires e.Do? && e.a.Register? && e.a.r.name in names ==> WaitsFor(e.a.r.deps, names)
    ensures Deadlocked(Step(w, e).svcs, names)
  {
    var t := Step(w, e).svcs;
    if e.Do? && (e.a.Register? || e.a.Free?) {
      hide Inv, Handles, WaitsFor;
      assert t == w.svcs[e.i := SlotAfter(w.svcs[e.i], e.a)];
    } else {
      OnlyLaunchesStart(w, e);
      hide Step, Legal, Inv;
      forall i: nat | i < |t| && t[i].active && t[i].name in names ensures t[i].state != Running {
        if On(t, i) {
          DeadlockedNotUp(w.svcs, names, i);
        }
      }
    }
  }

  /**
   Cycles, self-dependencies and dependencies on names never registered: as long as every service registered
   under a name in `names` waits for a name in `names`, no such service is ever running, in any run.
   */
  lemma {:induction false} NeverRunning(w: World, es: seq<Event>, names: set<Text>)
    requires Inv(w) && LegalRun(w, es) && Deadlocked(w.svcs, names) && KeepsWaiting(es, names)
    ensures forall i :: 0 <= i < |w.svcs| && Run(w, es).svcs[i].active && Run(w, es).svcs[i].name in names
              ==> Run(w, es).svcs[i].state != Running
    ensures Deadlocked(Run(w, es).svcs, names)
    decreases |es|
  {
    if es != [] {
      NeverRunning(w, es[..|es| - 1], names);
      RunKeeps(w, es[..|es| - 1]);
      hide Step, Legal, Inv, WaitsFor;
      StepDeadlocked(Run(w, es[..|es| - 1]), es[|es| - 1], names);
    }
  }
}
