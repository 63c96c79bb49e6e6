/**
 One run from the start of the program, and what can follow it: `a` runs with a logger, and `b`, which needs `a`,
 runs too. From there, a lost logger or a `stop` leaves `b` running without `a`, and a crash of `a` leaves its
 logger to itself.
 */
module Scenarios {
  import opened Types
  import opened KernelAnswers
  import opened Machine
  import opened Ledger
  import opened Propagation
  import opened Reaping
  import opened Closure
  import opened Restart

  function Zeros(n: nat): seq<Service> {
    seq(n, _ => SERVICE_ZERO)
  }

  function Table(a: Service, b: Service): (t: seq<Service>)
    ensures |t| == MAX_SERVICES && t[0] == a && t[1] == b && forall i :: 2 <= i < |t| ==> t[i] == SERVICE_ZERO
  {
    [a, b] + Zeros(MAX_SERVICES - 2)
  }

  function At(a: Service, b: Service, children: set<int>, ms: int, sent: seq<Signal> := []): World {
    World(Table(a, b), children, {}, ms, sent)
  }

  const RA := Registration("a", "/a", false, false, [], true)
  const RB := Registration("b", "/b", false, false, [Dependency("a", false)], true)
  const OA := Launched(1, 2, -1, -1, -1, -1, 0, 0, [Executable(true), Piped(true), Forked(1)], [Forked(2)])
  const OB := Launched(3, 4, -1, -1, -1, -1, 0, 0, [Executable(true), Piped(true), Forked(3)], [Forked(4)])

  /** `a` with main process 2 and logger 1, `b` with main process 4 and logger 3, both started at time 0. */
  const A := AfterLaunch(Registered(RA), 0, OA)
  const B := AfterLaunch(Registered(RB), 0, OB)

  const BOOT := At(SERVICE_ZERO, SERVICE_ZERO, {}, 0)
  const START := [Do(0, Register(RA)), Do(1, Register(RB)), Do(0, Launch(0, 0, OA)), Do(1, Launch(0, 0, OB))]
  const UP := At(A, B, {1, 2, 3, 4}, 0)

  predicate NoStreams(s: Service) {
    s.streams.out.readFd < 0 && s.streams.out.logFd < 0 && s.streams.err.readFd < 0 && s.streams.err.logFd < 0
  }

  lemma NoHandles(s: Service)
    requires s.active ==> NoStreams(s)
    ensures Handles(s) == {}
  {
    forall e ensures Fd(s, e) < 0 {
      assert e.c == Out || e.c == Err;
    }
  }

  lemma TableWith(a: Service, b: Service, i: nat, s: Service)
    requires i < 2
    ensures Table(a, b)[i := s] == if i == 0 then Table(s, b) else Table(a, s)
  {
  }

  /** The names of the two services lead to their slots. */
  lemma Names(a: Service, b: Service)
    requires a.active && b.active && a.name == "a" && b.name == "b"
    ensures FindByName(Table(a, b), "a") == Some(0) && FindByName(Table(a, b), "b") == Some(1)
  {
    assert Named(Table(a, b)[0], "a") && Named(Table(a, b)[1], "b");
    assert !Named(Table(a, b)[0], "b");
  }

  lemma RegisterFirst()
    ensures var w, e := BOOT, Do(0, Register(RA));
            Legal(w, e) && Step(w, e) == At(Registered(RA), SERVICE_ZERO, {}, 0)
  {
    NoHandles(SERVICE_ZERO);
    NoHandles(Registered(RA));
    TableWith(SERVICE_ZERO, SERVICE_ZERO, 0, Registered(RA));
    hide Handles;
  }

  lemma RegisterSecond()
    ensures var w, e := At(Registered(RA), SERVICE_ZERO, {}, 0), Do(1, Register(RB));
            Legal(w, e) && Step(w, e) == At(Registered(RA), Registered(RB), {}, 0)
  {
    NoHandles(SERVICE_ZERO);
    NoHandles(Registered(RB));
    TableWith(Registered(RA), SERVICE_ZERO, 1, Registered(RB));
    hide Handles;
    assert "/a" != "/b";
  }

  lemma LaunchFirst()
    ensures var w, e := At(Registered(RA), Registered(RB), {}, 0), Do(0, Launch(0, 0, OA));
            Legal(w, e) && Step(w, e) == At(A, Registered(RB), {1, 2}, 0)
  {
    NoHandles(Registered(RA));
    NoHandles(A);
    TableWith(Registered(RA), Registered(RB), 0, A);
    hide Handles;
    var w := At(Registered(RA), Registered(RB), {}, 0);
    assert DepsSatisfied(w.svcs[0], w.svcs);
    assert LegalLaunch(w, w.svcs[0], OA);
  }

  lemma NeedsUp(a: Service, b: Service)
    requires a.active && b.active && a.name == "a" && b.name == "b" && b.deps == [Dependency("a", false)]
    ensures DepsSatisfied(b, Table(a, b)) <==> a.state == Running
    ensures Needs(Table(a, b), 1, 0)
  {
    Names(a, b);
    var d := b.deps[0];
    assert d in b.deps && d == Dependency("a", false);
    assert Up(Table(a, b), d) <==> a.state == Running;
  }

  lemma LaunchSecond()
    ensures var w, e := At(A, Registered(RB), {1, 2}, 0), Do(1, Launch(0, 0, OB));
            Legal(w, e) && Step(w, e) == UP
  {
    NoHandles(Registered(RB));
    NoHandles(B);
    TableWith(A, Registered(RB), 1, B);
    NeedsUp(A, Registered(RB));
    hide Handles, DepsSatisfied;
    var w := At(A, Registered(RB), {1, 2}, 0);
    assert LegalLaunch(w, w.svcs[1], OB);
    assert {1, 2} + {3} + {4} == {1, 2, 3, 4};
  }

  lemma TwoSteps(w: World, es: seq<Event>, e: Event, f: Event)
    requires LegalRun(w, es) && Legal(Run(w, es), e) && Legal(Step(Run(w, es), e), f)
    ensures LegalRun(w, es + [e, f]) && Run(w, es + [e, f]) == Step(Step(Run(w, es), e), f)
  {
    hide Legal, Step;
    RunSnoc(w, es, e);
    RunSnoc(w, es + [e], f);
    assert es + [e] + [f] == es + [e, f];
  }

  lemma Registering()
    ensures var es := [Do(0, Register(RA)), Do(1, Register(RB))];
            LegalRun(BOOT, es) && Run(BOOT, es) == At(Registered(RA), Registered(RB), {}, 0)
  {
    hide Legal, Step, Registered, At;
    EmptyRun(BOOT);
    RegisterFirst();
    RegisterSecond();
    TwoSteps(BOOT, [], Do(0, Register(RA)), Do(1, Register(RB)));
    assert [] + [Do(0, Register(RA)), Do(1, Register(RB))] == [Do(0, Register(RA)), Do(1, Register(RB))];
  }

  lemma Starting()
    ensures LegalRun(BOOT, START) && Run(BOOT, START) == UP
  {
    hide Legal, Step, Registered, At;
    Registering();
    LaunchFirst();
    LaunchSecond();
    TwoSteps(BOOT, [Do(0, Register(RA)), Do(1, Register(RB))], Do(0, Launch(0, 0, OA)), Do(1, Launch(0, 0, OB)));
    assert [Do(0, Register(RA)), Do(1, Register(RB))] + [Do(0, Launch(0, 0, OA)), Do(1, Launch(0, 0, OB))] == START;
  }

  lemma UpIsClosed()
    ensures Closed(UP.svcs) && UP.svcs[0] == A && UP.svcs[1] == B
  {
    hide DepsSatisfied, AfterLaunch;
    NeedsUp(A, B) by { BothUp(); }
    BothUp();
    forall i | On(UP.svcs, i) ensures DepsSatisfied(UP.svcs[i], UP.svcs) {
      assert i == 0 || i == 1;
      if i == 0 {
        NoDependencies(UP.svcs, 0);
      }
    }
  }

  lemma NoDependencies(svcs: seq<Service>, i: nat)
    requires i < |svcs| && svcs[i].deps == []
    ensures DepsSatisfied(svcs[i], svcs)
  {
  }

  lemma BothUp()
    ensures A.active && A.name == "a" && A.deps == [] && A.state == Running && A.pid == 2 && A.logPid == 1 && A.hasLog
    ensures B.active && B.name == "b" && B.deps == [Dependency("a", false)] && B.state == Running
    ensures B.pid == 4 && B.logPid == 3 && B.hasLog && !A.stopping && !B.stopping && !A.once && A.startedAt == 0
    ensures A.restarts == 0
  {
  }

  /** The start of the program leads there, and then every running service has its dependencies running. */
  lemma Started()
    ensures Fresh(BOOT) && LegalRun(BOOT, START) && Run(BOOT, START) == UP && Inv(UP) && Closed(UP.svcs)
  {
    assert Fresh(BOOT);
    hide Legal, Step, Inv, Closed;
    Starting();
    UpIsClosed();
    FreshInv(BOOT);
    RunKeeps(BOOT, START);
  }

  // ---------------------------------------------------------------- what can follow

  lemma LoggerReaped()
    ensures var e := Reap(1, 0, 0, -1, []);
            Legal(UP, e) && !Unrequested(UP, e) && Step(UP, e) == At(AfterLoggerExit(A), B, {2, 3, 4}, 0)
  {
    var e := Reap(1, 0, 0, -1, []);
    hide AfterLaunch, AfterLoggerExit;
    BothUp();
    assert LoggerOf(UP.svcs, 1) == Some(0) by { assert UP.svcs[0].active && UP.svcs[0].logPid == 1; }
    NoHandles(A) by { NoFds(); }
    NoHandles(AfterLoggerExit(A)) by { NoFds(); }
    TableWith(A, B, 0, AfterLoggerExit(A));
    hide Handles, LoggerOf;
    assert {1, 2, 3, 4} - {1} + {} == {2, 3, 4};
  }

  lemma NoFds()
    ensures forall s :: s == A || s == AfterLoggerExit(A) || s == AfterExit(A, 0, 0) ==> NoStreams(s)
  {
  }

  lemma LostLoggerSlot()
    ensures var s := AfterLoggerExit(A);
            && s.active && s.hasLog && s.logPid == -1 && s.pid == 2 && !s.stopping
            && s.state == Running && s.name == "a"
  {
  }

  lemma OneReap()
    ensures var es := [Reap(1, 0, 0, -1, [])];
            && AllReaps(es) && LegalRun(UP, es) && !SomeUnrequested(UP, es)
            && Run(UP, es) == At(AfterLoggerExit(A), B, {2, 3, 4}, 0)
  {
    hide Legal, Step, AfterLoggerExit, AfterLaunch, Unrequested, At;
    var e := Reap(1, 0, 0, -1, []);
    LoggerReaped();
    NoReaps(UP);
    OneMoreReap(UP, [], e);
    RunSnoc(UP, [], e);
    assert [] + [e] == [e];
  }

  lemma LeftBehind(m: seq<Service>)
    requires m == Table(AfterLoggerExit(A), B)
    ensures LeavesDependents(m, Members([0]))
  {
    hide AfterLoggerExit, AfterLaunch, Needs, DepsSatisfied;
    BothUp();
    LostLoggerSlot();
    NeedsUp(AfterLoggerExit(A), B);
    assert On(m, 1) && 1 !in Members([0]) && 0 in Members([0]) && Needs(m, 1, 0);
  }

  /** A lost logger: `a` is stopped for want of it, after the propagation, and `b` goes on running without `a`. */
  lemma LostLoggerStrands()
    ensures Inv(UP) && Closed(UP.svcs) && ReapPhase(UP, [Reap(1, 0, 0, -1, [])], [], [0])
    ensures !Closed(AfterReapPhase(UP, [Reap(1, 0, 0, -1, [])], [], [0]))
  {
    hide Inv, LegalRun, Run, AfterLoggerExit, AfterLaunch, SomeUnrequested, AllOrphans, LeavesDependents;
    hide Closed, AllReaps;
    var m := Table(AfterLoggerExit(A), B);
    Started();
    OneReap();
    NoneMarked(m);
    OnlyFirst(m);
    LeftBehind(m);
    ReapPhaseClosed(UP, [Reap(1, 0, 0, -1, [])], [], [0]);
  }

  lemma OnlyFirst(m: seq<Service>)
    requires m == Table(AfterLoggerExit(A), B)
    ensures AllOrphans(m, [0])
  {
    LostLoggerSlot();
    BothUp();
    hide AfterLoggerExit, AfterLaunch;
    forall i: nat | i < |m| ensures i in Members([0]) <==> LacksLogger(m[i]) {
      assert i >= 2 ==> m[i] == SERVICE_ZERO;
    }
  }

  /** `stop a` is obeyed while `b` runs: nothing has lost a dependency yet, so `b` goes on running without `a`. */
  lemma StopStrands()
    ensures var e := Do(0, Cmd(Stop));
            && Inv(UP) && Closed(UP.svcs) && Legal(UP, e) && AllDoomed(UP.svcs, [])
            && !Closed(Step(UP, e).svcs)
  {
    hide Inv, AfterLaunch, Needs, DepsSatisfied, CommandAfter, Handles;
    Started();
    BothUp();
    NeedsUp(A, B);
    ClosedUndoomed(UP.svcs);
    assert On(UP.svcs, 0) && On(UP.svcs, 1) && Depended(UP.svcs, 0);
    StopClosedIff(UP, 0, Stop);
  }

  lemma ClosedUndoomed(svcs: seq<Service>)
    requires Closed(svcs)
    ensures AllDoomed(svcs, [])
  {
    hide Closed;
    forall p ensures !PathDown(svcs, p) {
      ClosedNoPath(svcs, p);
    }
  }

  lemma ClosedNoPath(svcs: seq<Service>, p: seq<nat>)
    requires Closed(svcs)
    ensures !PathDown(svcs, p)
  {
    hide Needs;
    if p != [] && On(svcs, p[|p| - 1]) {
      assert DepsSatisfied(svcs[p[|p| - 1]], svcs);
    }
  }

  // ---------------------------------------------------------------- a logger left to itself

  /** `a` as it is after its main process has ended by itself at time 0. */
  const CRASHED := AfterExit(A, 0, 0)

  /** What the kernel answers when `a` is started again: logger 5, main process 6. */
  const AGAIN := Launched(5, 6, -1, -1, -1, -1, 0, 0, [Executable(true), Piped(true), Forked(5)], [Forked(6)])

  lemma CrashedSlot()
    ensures CRASHED.active && CRASHED.present && CRASHED.hasLog && CRASHED.logPid == 1 && CRASHED.pid == -1
    ensures !CRASHED.stopping && CRASHED.restartAt == 2 && CRASHED.autoStart && !CRASHED.once && CRASHED.deps == []
  {
  }

  /** The exit of process 2, the main process of slot 0, at time 0. */
  lemma FirstExit(a: Service, sent: seq<Signal>)
    requires a.active && a.pid == 2 && a.logPid == 1 && !a.stopping && NoStreams(a) && NoStreams(AfterExit(a, 0, 0))
    ensures var w, e := At(a, B, {1, 2, 3, 4}, 0, sent), Reap(2, 0, 0, -1, [Executable(false)]);
            && Legal(w, e) && LoggerOf(w.svcs, 2) == None && MainOf(w.svcs, 2) == Some(0)
            && Step(w, e) == At(AfterExit(a, 0, 0), B, {1, 3, 4}, 0, sent)
  {
    var w, e := At(a, B, {1, 2, 3, 4}, 0, sent), Reap(2, 0, 0, -1, [Executable(false)]);
    hide AfterLaunch, AfterExit, LoggerOf, MainOf;
    BothUp();
    OnlyFirstHolds(a, B);
    NoHandles(a);
    NoHandles(AfterExit(a, 0, 0));
    TableWith(a, B, 0, AfterExit(a, 0, 0));
    hide Handles, Table;
    assert {1, 2, 3, 4} - {2} + {} == {1, 3, 4};
    assert sent + [] == sent;
  }

  lemma OnlyFirstHolds(a: Service, b: Service)
    requires a.active && a.pid == 2 && a.logPid == 1 && b.pid == 4 && b.logPid == 3
    ensures LoggerOf(Table(a, b), 2) == None && MainOf(Table(a, b), 2) == Some(0)
  {
    var t := Table(a, b);
    assert t[0].active && t[0].pid == 2;
    hide LoggerOf, MainOf;
  }

  lemma Crash()
    ensures var e := Reap(2, 0, 0, -1, [Executable(false)]);
            && Legal(UP, e) && Decode(e.status) != Down && Unrequested(UP, e)
            && Step(UP, e) == At(CRASHED, B, {1, 3, 4}, 0)
  {
    BothUp();
    NoFds();
    hide AfterLaunch, AfterExit, Legal, Step, LoggerOf, MainOf;
    FirstExit(A, []);
  }

  lemma Later2()
    ensures var w := At(CRASHED, B, {1, 3, 4}, 0);
            Legal(w, Tick(2000)) && Step(w, Tick(2000)) == At(CRASHED, B, {1, 3, 4}, 2000)
  {
    hide AfterLaunch, AfterExit;
  }

  lemma Relaunch()
    ensures Legal(At(CRASHED, B, {1, 3, 4}, 2000), Do(0, Launch(2, 2000, AGAIN)))
  {
    var w := At(CRASHED, B, {1, 3, 4}, 2000);
    CrashedSlot();
    hide AfterLaunch, AfterExit, Handles;
    NoDependencies(w.svcs, 0);
    assert LegalLaunch(w, w.svcs[0], AGAIN);
  }

  /**
   From the start of the program: `a` ends by itself, which leaves its logger alive, and two seconds later it is
   started again with a new logger. The old one, process 1, is still a child, and no slot holds it any more.
   */
  lemma LoggerOrphaned()
    ensures var es := START + [Reap(2, 0, 0, -1, [Executable(false)]), Tick(2000)] + [Do(0, Launch(2, 2000, AGAIN))];
            && Fresh(BOOT) && LegalRun(BOOT, es)
            && 1 in Run(BOOT, es).children && !Held(Run(BOOT, es).svcs, 1)
  {
    hide Inv, Legal, Step, AfterLaunch, AfterExit, Held, At, Closed, Unrequested, Decode;
    var w, l := At(CRASHED, B, {1, 3, 4}, 2000), Do(0, Launch(2, 2000, AGAIN));
    var es := START + [Reap(2, 0, 0, -1, [Executable(false)]), Tick(2000)];
    Started();
    Crash();
    Later2();
    TwoSteps(BOOT, START, Reap(2, 0, 0, -1, [Executable(false)]), Tick(2000));
    RunKeeps(BOOT, es) by { FreshInv(BOOT); }
    Relaunch();
    CrashedSlot();
    AtFirst(CRASHED, B, {1, 3, 4}, 2000);
    LaunchOrphansLoggerIff(w, 0, 2, 2000, AGAIN);
    RunSnoc(BOOT, es, l);
  }

  lemma AtFirst(a: Service, b: Service, children: set<int>, ms: int)
    ensures |At(a, b, children, ms).svcs| > 0 && At(a, b, children, ms).svcs[0] == a
  {
  }

  // ---------------------------------------------------------------- a stop that a scan undoes

  /** `a` when it has been told to stop, when a scan has found it after that, and when its exit is reaped then. */
  const HALTED := CommandAfter(A, Stop)
  const FOUND := SlotAfter(HALTED, ScanSeen)
  const ENDED := AfterExit(FOUND, 0, 0)
  const TERMS := [Signal(2, SIGTERM, true), Signal(1, SIGTERM, false)]

  lemma ThreeSteps(w: World, es: seq<Event>, es': seq<Event>, c: seq<Event>, u: World, v: World, x: World)
    requires |c| == 3 && es' == es + c && LegalRun(w, es) && Legal(Run(w, es), c[0]) && Step(Run(w, es), c[0]) == u
    requires Legal(u, c[1]) && Step(u, c[1]) == v && Legal(v, c[2]) && Step(v, c[2]) == x
    ensures LegalRun(w, es') && Run(w, es') == x
  {
    hide Legal, Step;
    RunSnoc(w, es, c[0]);
    RunSnoc(w, es + [c[0]], c[1]);
    RunSnoc(w, es + [c[0]] + [c[1]], c[2]);
    assert es + [c[0]] + [c[1]] + [c[2]] == es';
  }

  lemma HaltedSlots()
    ensures HALTED.active && HALTED.present && HALTED.stopping && HALTED.pid == 2 && HALTED.logPid == 1
    ensures FOUND.active && FOUND.present && !FOUND.stopping && FOUND.pid == 2 && FOUND.logPid == 1
    ensures ENDED.active && ENDED.present && !ENDED.stopping && ENDED.pid == -1 && ENDED.logPid == 1
    ensures ENDED.restartAt == 2 && ENDED.autoStart && !ENDED.once && ENDED.deps == [] && ENDED.hasLog
    ensures forall s :: s in {HALTED, Unlisted(HALTED), FOUND, ENDED, B, Unlisted(B)} ==> NoStreams(s)
  {
  }

  lemma StopFirst()
    ensures var e := Do(0, Cmd(Stop));
            Legal(UP, e) && Step(UP, e) == At(HALTED, B, {1, 2, 3, 4}, 0, TERMS)
  {
    hide AfterLaunch, CommandAfter;
    BothUp();
    NoHandles(A) by { NoFds(); }
    NoHandles(HALTED) by { HaltedSlots(); }
    TableWith(A, B, 0, HALTED);
    hide Handles;
    assert [] + TERMS == TERMS;
  }

  lemma UnlistAll()
    ensures var w := At(HALTED, B, {1, 2, 3, 4}, 0, TERMS);
            Legal(w, ScanOpen) && Step(w, ScanOpen) == At(Unlisted(HALTED), Unlisted(B), {1, 2, 3, 4}, 0, TERMS)
  {
    hide AfterLaunch, CommandAfter, Handles;
    var w := At(HALTED, B, {1, 2, 3, 4}, 0, TERMS);
    assert Step(w, ScanOpen).svcs == Table(Unlisted(HALTED), Unlisted(B));
  }

  lemma SeenAgain(a: Service, b: Service, i: nat, children: set<int>, sent: seq<Signal>)
    requires i < 2 && a.active && b.active
    requires NoStreams(a) && NoStreams(b)
    ensures var w, e := At(a, b, children, 0, sent), Do(i, ScanSeen);
            && Legal(w, e)
            && Step(w, e) == if i == 0 then At(SlotAfter(a, ScanSeen), b, children, 0, sent)
                             else At(a, SlotAfter(b, ScanSeen), children, 0, sent)
  {
    var s := if i == 0 then a else b;
    NoHandles(s);
    NoHandles(SlotAfter(s, ScanSeen));
    TableWith(a, b, i, SlotAfter(s, ScanSeen));
    hide Handles;
  }

  lemma SeenSlots()
    ensures SlotAfter(Unlisted(HALTED), ScanSeen) == FOUND && SlotAfter(Unlisted(B), ScanSeen) == B
  {
    hide AfterLaunch, CommandAfter;
    HaltedSlots();
    BothUp();
    assert B.present by { OtherPresent(); }
  }

  lemma OtherPresent()
    ensures B.present && Unlisted(B).active && Unlisted(HALTED).active
  {
  }

  lemma StopExit()
    ensures var w, e := At(FOUND, B, {1, 2, 3, 4}, 0, TERMS), Reap(2, 0, 0, -1, [Executable(false)]);
            Legal(w, e) && Step(w, e) == At(ENDED, B, {1, 3, 4}, 0, TERMS)
  {
    HaltedSlots();
    hide AfterLaunch, AfterExit, CommandAfter, Legal, Step;
    FirstExit(FOUND, TERMS);
  }

  lemma StartedAgain()
    ensures var w := At(ENDED, B, {1, 3, 4}, 0, TERMS);
            && Legal(w, Tick(2000)) && Step(w, Tick(2000)) == At(ENDED, B, {1, 3, 4}, 2000, TERMS)
            && Legal(Step(w, Tick(2000)), Do(0, Launch(2, 2000, AGAIN)))
  {
    hide AfterLaunch, AfterExit, CommandAfter, Handles;
    var w := At(ENDED, B, {1, 3, 4}, 2000, TERMS);
    HaltedSlots();
    NoDependencies(w.svcs, 0);
    assert LegalLaunch(w, w.svcs[0], AGAIN);
    assert TERMS + [] == TERMS;
  }

  const STOP_SEEN := [Do(0, Cmd(Stop)), ScanOpen, Do(0, ScanSeen)]
  const SEEN_ENDED := [Do(1, ScanSeen), Reap(2, 0, 0, -1, [Executable(false)]), Tick(2000)]

  lemma StopSeen()
    ensures LegalRun(BOOT, START + STOP_SEEN)
    ensures Run(BOOT, START + STOP_SEEN) == At(FOUND, Unlisted(B), {1, 2, 3, 4}, 0, TERMS)
  {
    hide Legal, Step, AfterLaunch, CommandAfter, SlotAfter, Inv, Closed, At;
    var c := {1, 2, 3, 4};
    Started();
    StopFirst();
    UnlistAll();
    SeenSlots();
    SeenAgain(Unlisted(HALTED), Unlisted(B), 0, c, TERMS) by { HaltedSlots(); OtherPresent(); }
    ThreeSteps(BOOT, START, START + STOP_SEEN, STOP_SEEN, At(HALTED, B, c, 0, TERMS),
               At(Unlisted(HALTED), Unlisted(B), c, 0, TERMS), At(FOUND, Unlisted(B), c, 0, TERMS));
  }

  lemma SeenEnded()
    ensures LegalRun(BOOT, START + STOP_SEEN + SEEN_ENDED)
    ensures Run(BOOT, START + STOP_SEEN + SEEN_ENDED) == At(ENDED, B, {1, 3, 4}, 2000, TERMS)
  {
    hide Legal, Step, AfterLaunch, CommandAfter, AfterExit, SlotAfter, At;
    StopSeen();
    SeenSlots();
    SeenAgain(FOUND, Unlisted(B), 1, {1, 2, 3, 4}, TERMS) by { HaltedSlots(); OtherPresent(); }
    StopExit();
    StartedAgain();
    ThreeSteps(BOOT, START + STOP_SEEN, START + STOP_SEEN + SEEN_ENDED, SEEN_ENDED,
               At(FOUND, B, {1, 2, 3, 4}, 0, TERMS), At(ENDED, B, {1, 3, 4}, 0, TERMS),
               At(ENDED, B, {1, 3, 4}, 2000, TERMS));
  }

  /**
   From the start of the program: `a` is told to stop, a scan finds both services before its exit is reaped, and
   two seconds later `a` is started again, although nobody has told it to.
   */
  lemma ScanUndoesStop()
    ensures Fresh(BOOT) && LegalRun(BOOT, START + STOP_SEEN + SEEN_ENDED + [Do(0, Launch(2, 2000, AGAIN))])
    ensures Starts(Do(0, Launch(2, 2000, AGAIN)), 0) && Unattended(STOP_SEEN + SEEN_ENDED, 0)
  {
    hide Legal, Step, AfterLaunch, AfterExit, CommandAfter, Inv, Closed, At;
    Started();
    StopSeen();
    SeenEnded();
    StartedAgain();
    var es := START + STOP_SEEN + SEEN_ENDED;
    RunSnoc(BOOT, es, Do(0, Launch(2, 2000, AGAIN)));
  }
}
