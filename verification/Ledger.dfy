/**
 What every legal step keeps, and hence what holds in every reachable state: the life cycle of a slot,
 the ledger of child processes, the ledger of descriptors, and one active slot per directory.
 */
module Ledger {
  import opened Types
  import opened Machine

  ghost predicate SlotOk(s: Service) {
    && (s.state == Running ==> s.active && s.pid > 0 && !s.stopping)
    && (s.pid > 0 ==> s.active && (s.state == Running || s.state == Stopping) && s.restartAt < NEVER)
    && (s.logPid > 0 ==> s.active)
    && (s.active ==> s.pid >= -1 && s.pid != 0 && s.logPid >= -1 && s.logPid != 0)
  }

  /** The processes held by slots are unreaped children, and no child is held twice. */
  ghost predicate ProcLedger(svcs: seq<Service>, children: set<int>) {
    && (forall i, r :: 0 <= i < |svcs| && Proc(svcs[i], r) > 0 ==> Proc(svcs[i], r) in children)
    && (forall i, j, r, q :: 0 <= i < |svcs| && 0 <= j < |svcs| && (i != j || r != q) && Proc(svcs[i], r) > 0
          ==> Proc(svcs[i], r) != Proc(svcs[j], q))
  }

  ghost predicate DistinctEnds(s: Service) {
    forall e, f :: e != f && Fd(s, e) >= 0 ==> Fd(s, e) != Fd(s, f)
  }

  /** The open service descriptors are exactly those held by slots, and none is held twice. */
  ghost predicate FdLedger(svcs: seq<Service>, fds: set<int>) {
    && (forall i :: 0 <= i < |svcs| ==> DistinctEnds(svcs[i]) && Handles(svcs[i]) <= fds)
    && (forall i, j :: 0 <= i < |svcs| && 0 <= j < |svcs| && i != j ==> Handles(svcs[i]) !! Handles(svcs[j]))
    && (forall f :: f in fds ==> exists i :: 0 <= i < |svcs| && f in Handles(svcs[i]))
  }

  /** A service that has a logger of its own has no pipe to the supervisor. */
  ghost predicate Deaf(s: Service) {
    s.active && s.hasLog ==> s.streams.out.readFd < 0 && s.streams.err.readFd < 0
  }

  ghost predicate Inv(w: World) {
    && (forall i :: 0 <= i < |w.svcs| ==> SlotOk(w.svcs[i]) && Deaf(w.svcs[i]))
    && ProcLedger(w.svcs, w.children)
    && FdLedger(w.svcs, w.fds)
    && UniqueDirs(w.svcs)
  }

  // ---------------------------------------------------------------- one slot is rewritten

  lemma ProcPut(svcs: seq<Service>, children: set<int>, i: nat, s: Service, children': set<int>)
    requires i < |svcs| && ProcLedger(svcs, children)
    requires forall r :: Proc(s, r) > 0 ==> Proc(s, r) == Proc(svcs[i], r) || Proc(s, r) !in children
    requires Proc(s, Main) > 0 ==> Proc(s, Main) != Proc(s, Logger)
    requires forall r :: Proc(s, r) > 0 ==> Proc(s, r) in children'
    requires forall j, r :: 0 <= j < |svcs| && j != i && Proc(svcs[j], r) > 0 ==> Proc(svcs[j], r) in children'
    ensures ProcLedger(svcs[i := s], children')
  {
    var t := svcs[i := s];
    forall k, j, r, q | 0 <= k < |t| && 0 <= j < |t| && (k != j || r != q) && Proc(t[k], r) > 0
      ensures Proc(t[k], r) != Proc(t[j], q)
    {
      if k == i && j == i {
        assert {r, q} == {Main, Logger};
      }
    }
  }

  lemma FdPut(svcs: seq<Service>, fds: set<int>, i: nat, s: Service)
    requires i < |svcs| && FdLedger(svcs, fds)
    requires DistinctEnds(s) && Handles(s) !! fds - Handles(svcs[i])
    ensures FdLedger(svcs[i := s], fds - Handles(svcs[i]) + Handles(s))
  {
    hide Handles, DistinctEnds;
    var t, gs := svcs[i := s], fds - Handles(svcs[i]) + Handles(s);
    forall f | f in gs ensures exists j :: 0 <= j < |t| && f in Handles(t[j]) {
      if f in Handles(s) {
        assert f in Handles(t[i]);
      } else {
        var j :| 0 <= j < |svcs| && f in Handles(svcs[j]);
        assert t[j] == svcs[j];
      }
    }
  }

  /** Descriptors that a slot keeps need no new argument. */
  lemma KeptEnds(s: Service, s': Service, fds: set<int>)
    requires DistinctEnds(s)
    requires forall e :: Fd(s', e) == Fd(s, e) || Fd(s', e) < 0
    ensures DistinctEnds(s') && Handles(s') !! fds - Handles(s)
  {
    forall e, f | e != f && Fd(s', e) >= 0 ensures Fd(s', e) != Fd(s', f) {
      assert Fd(s', e) == Fd(s, e) && Fd(s, e) != Fd(s, f);
    }
  }

  lemma NewEnds(s: Service, o: Launched, t: int, w: World)
    requires s.active && DistinctEnds(s) && LegalLaunch(w, s, o)
    ensures DistinctEnds(AfterLaunch(s, t, o)) && Handles(AfterLaunch(s, t, o)) !! w.fds - Handles(s)
  {
    var s' := AfterLaunch(s, t, o);
    if o.pid > 0 && o.loggerPid <= 0 {
      forall f | f in Handles(s') ensures f in {o.outRead, o.errRead, o.outLog, o.errLog} {
        var e :| Fd(s', e) == f;
      }
    } else {
      KeptEnds(s, s', w.fds);
    }
  }

  lemma ReopenedEnds(s: Service, s': Service, e: End, fds: set<int>)
    requires DistinctEnds(s) && Handles(s) <= fds
    requires forall d :: d != e ==> Fd(s', d) == Fd(s, d)
    requires Fd(s', e) >= 0 ==> Fd(s', e) !in fds - {Fd(s, e)}
    ensures DistinctEnds(s') && Handles(s') !! fds - Handles(s)
  {
    forall d, f | d != f && Fd(s', d) >= 0 ensures Fd(s', d) != Fd(s', f) {
      if d == e && Fd(s', f) >= 0 {
        assert Fd(s, f) in Handles(s) && Fd(s, f) != Fd(s, e);
      } else if f == e {
        assert Fd(s, d) in Handles(s) && Fd(s, d) != Fd(s, e);
      }
    }
    forall f | f in Handles(s') ensures f !in fds - Handles(s) {
      var d :| Fd(s', d) == f;
      if d == e && f == Fd(s, e) {
        assert f in Handles(s);
      } else if d != e {
        assert f in Handles(s);
      }
    }
  }

  // ---------------------------------------------------------------- every step

  lemma CommandSlot(s: Service, c: Command)
    requires SlotOk(s) && (c.GoUp? ==> Seconds(c.at) < NEVER)
    ensures SlotOk(CommandAfter(s, c))
  {
  }

  lemma IoSlot(s: Service, c: Channel, op: StreamOp)
    requires SlotOk(s)
    ensures SlotOk(IoAfter(s, c, op))
  {
  }

  lemma LaunchSlot(s: Service, t: int, o: Launched)
    requires SlotOk(s) && s.active && !s.stopping && s.restartAt <= t < NEVER
    ensures SlotOk(AfterLaunch(s, t, o))
  {
  }

  lemma CommandDeaf(s: Service, c: Command)
    requires Deaf(s)
    ensures Deaf(CommandAfter(s, c))
  {
    match c
    case Start =>
    case Stop =>
    case Restart =>
    case GoDown =>
    case GoUp(_) =>
    case Once =>
    case Send(_) =>
  }

  lemma IoDeaf(s: Service, c: Channel, op: StreamOp)
    requires Deaf(s)
    ensures Deaf(IoAfter(s, c, op))
  {
  }

  lemma LaunchDeaf(w: World, s: Service, t: int, o: Launched)
    requires LegalLaunch(w, s, o)
    ensures Deaf(AfterLaunch(s, t, o))
  {
    hide LaunchAnswers, Handles;
  }

  lemma StoppedDeaf(s: Service)
    requires Deaf(s)
    ensures Deaf(Stopped(s)) && Deaf(LoggerStopped(s)) && Deaf(Finalized(s)) && Deaf(Unlisted(s))
  {
  }

  /** The pipes of a service that gets a logger are closed, and a service with pipes loses its logger. */
  lemma DeafKept(w: World, i: nat, a: Action)
    requires i < |w.svcs| && Deaf(w.svcs[i]) && Allowed(w, i, a)
    ensures Deaf(SlotAfter(w.svcs[i], a))
  {
    var s := w.svcs[i];
    hide DepsSatisfied, Handles, Stranded, CommandAfter, IoAfter, AfterLaunch, LegalLaunch, AllowedIo;
    hide Stopped, LoggerStopped, Finalized, Deaf;
    match a
    case Launch(_, at, o) => LaunchDeaf(w, s, Seconds(at), o);
    case Cmd(c) => CommandDeaf(s, c);
    case Io(c, op) => IoDeaf(s, c, op);
    case Terminate(_) => StoppedDeaf(s);
    case TerminateLogger => StoppedDeaf(s);
    case Finalize => StoppedDeaf(s);
    case Defer(_, at) => MarksDeaf(s, Seconds(at) + 1);
    case ScanSeen => MarksDeaf(s, 0);
    case Register(r) => RegisteredDeaf(r);
    case Free => FreeDeaf(s);
    case KillMain =>
    case KillLogger =>
  }

  lemma MarksDeaf(s: Service, at: int)
    requires Deaf(s)
    ensures Deaf(s.(restartAt := at)) && Deaf(s.(present := true, stopping := false))
  {
  }

  lemma RegisteredDeaf(r: Registration)
    ensures Deaf(Registered(r))
  {
  }

  lemma FreeDeaf(s: Service)
    ensures Deaf(SlotAfter(s, Free))
  {
  }

  lemma SlotKept(w: World, i: nat, a: Action)
    requires i < |w.svcs| && SlotOk(w.svcs[i]) && Allowed(w, i, a)
    ensures SlotOk(SlotAfter(w.svcs[i], a))
  {
    var s := w.svcs[i];
    hide DepsSatisfied, Handles, Stranded, CommandAfter, IoAfter, AfterLaunch, LegalLaunch, AllowedIo;
    match a
    case Launch(_, at, o) => LaunchSlot(s, Seconds(at), o);
    case Cmd(c) => CommandSlot(s, c);
    case Io(c, op) => IoSlot(s, c, op);
    case _ =>
  }

  lemma CommandHolds(s: Service, c: Command)
    ensures forall r :: Proc(CommandAfter(s, c), r) == Proc(s, r)
    ensures forall e :: Fd(CommandAfter(s, c), e) == Fd(s, e)
    ensures CommandAfter(s, c).active == s.active && CommandAfter(s, c).dir == s.dir
  {
    CommandKeeps(s, c);
    hide CommandAfter;
  }

  lemma CommandKeeps(s: Service, c: Command)
    ensures var t := CommandAfter(s, c);
            && t.active == s.active && t.dir == s.dir && t.pid == s.pid && t.logPid == s.logPid
            && t.streams == s.streams
  {
    match c
    case Start =>
    case Stop =>
    case Restart =>
    case GoDown =>
    case GoUp(_) =>
    case Once =>
    case Send(_) =>
  }

  lemma LaunchHolds(s: Service, t: int, o: Launched)
    ensures Proc(AfterLaunch(s, t, o), Main) == o.pid || Proc(AfterLaunch(s, t, o), Main) == -1
    ensures Proc(AfterLaunch(s, t, o), Logger) == o.loggerPid || Proc(AfterLaunch(s, t, o), Logger) == Proc(s, Logger)
  {
  }

  /** Only a launch gives a slot a process it did not hold. */
  lemma ActionProcs(s: Service, a: Action, r: Role)
    ensures !a.Launch? ==> Proc(SlotAfter(s, a), r) == Proc(s, r) || Proc(SlotAfter(s, a), r) <= 0
    ensures a.Launch? ==>
              || Proc(SlotAfter(s, a), r) == Proc(s, r) || Proc(SlotAfter(s, a), r) <= 0
              || Proc(SlotAfter(s, a), r) == if r == Main then a.o.pid else a.o.loggerPid
  {
    hide CommandAfter, AfterLaunch;
    match a
    case Launch(_, at, o) => LaunchHolds(s, Seconds(at), o);
    case Cmd(c) => CommandHolds(s, c);
    case _ =>
  }

  lemma ProcKept(w: World, i: nat, a: Action)
    requires Inv(w) && i < |w.svcs| && Allowed(w, i, a)
    ensures ProcLedger(w.svcs[i := SlotAfter(w.svcs[i], a)], ChildrenAfter(w, Do(i, a)))
  {
    var s, s', children' := w.svcs[i], SlotAfter(w.svcs[i], a), ChildrenAfter(w, Do(i, a));
    assert forall r :: Proc(s, r) > 0 ==> Proc(s, r) in w.children;
    assert Proc(s, Main) > 0 ==> Proc(s, Main) != Proc(s, Logger);
    assert w.children <= children';
    assert a.Launch? ==> LegalLaunch(w, s, a.o);
    ActionProcs(s, a, Main);
    ActionProcs(s, a, Logger);
    hide SlotAfter, Allowed, Inv, FdLedger, Proc, Handles;
    forall r
      ensures Proc(s', r) > 0 ==> (Proc(s', r) == Proc(s, r) || Proc(s', r) !in w.children) && Proc(s', r) in children'
    {
      assert r == Main || r == Logger;
    }
    ProcPut(w.svcs, w.children, i, s', children') by {
      assert Proc(s', Main) > 0 ==> Proc(s', Main) != Proc(s', Logger);
    }
  }

  lemma ActionEnds(s: Service, a: Action, e: End)
    requires !a.Launch? && !a.Io?
    ensures Fd(SlotAfter(s, a), e) == Fd(s, e) || Fd(SlotAfter(s, a), e) < 0
  {
    hide AfterLaunch, CommandAfter, IoAfter;
    if a.Cmd? {
      CommandHolds(s, a.cmd);
    }
  }

  lemma IoEnds(s: Service, c: Channel, op: StreamOp, e: End)
    requires s.active
    ensures Fd(IoAfter(s, c, op), e) ==
            if op.OpenLog? && e == End(c, true) then op.fd
            else if (op.CloseLog? && e == End(c, true)) || (op.CloseRead? && e == End(c, false)) then -1
            else Fd(s, e)
  {
  }

  lemma FdKept(w: World, i: nat, a: Action)
    requires Inv(w) && i < |w.svcs| && Allowed(w, i, a)
    ensures FdLedger(w.svcs[i := SlotAfter(w.svcs[i], a)], Put(w, i, SlotAfter(w.svcs[i], a)).fds)
  {
    var s, s' := w.svcs[i], SlotAfter(w.svcs[i], a);
    assert DistinctEnds(s) && Handles(s) <= w.fds;
    if a.Launch? {
      assert s.active && LegalLaunch(w, s, a.o);
      NewEnds(s, a.o, Seconds(a.at), w);
    } else if a.Io? {
      assert AllowedIo(w, s.streams.At(a.c), a.op);
      assert s' == IoAfter(s, a.c, a.op);
      hide SlotAfter, Inv, FdLedger, Handles, DistinctEnds, IoAfter;
      forall e {
        IoEnds(s, a.c, a.op, e);
      }
      if a.op.OpenLog? {
        ReopenedEnds(s, s', End(a.c, true), w.fds);
      } else {
        KeptEnds(s, s', w.fds);
      }
    } else {
      hide SlotAfter, Allowed, Inv, FdLedger, Handles, DistinctEnds;
      forall e {
        ActionEnds(s, a, e);
      }
      KeptEnds(s, s', w.fds);
    }
    FdPut(w.svcs, w.fds, i, s') by {
      hide SlotAfter, Allowed, Handles, DistinctEnds;
    }
  }

  lemma ActionDir(s: Service, a: Action)
    ensures SlotAfter(s, a).active && !a.Register? ==> s.active && SlotAfter(s, a).dir == s.dir
  {
    hide CommandAfter, IoAfter, AfterLaunch, Registered, Stopped, LoggerStopped, Finalized, WithoutFds;
    match a
    case Cmd(c) => CommandHolds(s, c);
    case Io(c, op) => IoDir(s, c, op);
    case Launch(_, at, o) => LaunchDir(s, Seconds(at), o);
    case Terminate(_) => StoppedDir(s);
    case TerminateLogger => LoggerStoppedDir(s);
    case Defer(_, _) =>
    case ScanSeen =>
    case Register(_) =>
    case Free =>
    case KillMain =>
    case KillLogger =>
    case Finalize => FinalDir(s);
  }

  lemma StoppedDir(s: Service)
    ensures Stopped(s).active == s.active && Stopped(s).dir == s.dir
  {
  }

  lemma LoggerStoppedDir(s: Service)
    ensures LoggerStopped(s).active == s.active && LoggerStopped(s).dir == s.dir
  {
  }

  lemma FinalDir(s: Service)
    ensures Finalized(s).active == s.active && Finalized(s).dir == s.dir
  {
  }

  lemma IoDir(s: Service, c: Channel, op: StreamOp)
    ensures IoAfter(s, c, op).active == s.active && IoAfter(s, c, op).dir == s.dir
  {
  }

  lemma LaunchDir(s: Service, t: int, o: Launched)
    ensures AfterLaunch(s, t, o).active == s.active && AfterLaunch(s, t, o).dir == s.dir
  {
  }

  lemma DirsKept(w: World, i: nat, a: Action)
    requires Inv(w) && i < |w.svcs| && Allowed(w, i, a)
    ensures UniqueDirs(w.svcs[i := SlotAfter(w.svcs[i], a)])
  {
    ActionDir(w.svcs[i], a);
    if a.Register? {
      hide ProcLedger, FdLedger, SlotOk, DepsSatisfied, Handles;
    } else {
      hide ProcLedger, FdLedger, SlotOk, Allowed, SlotAfter;
    }
  }

  lemma DoKeeps(w: World, i: nat, a: Action)
    requires Inv(w) && i < |w.svcs| && Allowed(w, i, a)
    ensures Inv(Step(w, Do(i, a)))
  {
    SlotKept(w, i, a);
    DeafKept(w, i, a);
    ProcKept(w, i, a);
    FdKept(w, i, a);
    DirsKept(w, i, a);
    hide Allowed, SlotAfter, ChildrenAfter, ActionSends, Handles, SlotOk, Deaf, ProcLedger, FdLedger;
  }

  /** Taking the held child `pid` out of the ledger and out of its slot. */
  lemma Released(w: World, i: nat, role: Role, s': Service, pid: int, children': set<int>)
    requires Inv(w) && i < |w.svcs| && pid > 0 && Proc(w.svcs[i], role) == pid
    requires Proc(s', role) <= 0 && forall r :: r != role ==> Proc(s', r) == Proc(w.svcs[i], r)
    requires w.children - {pid} <= children'
    ensures ProcLedger(w.svcs[i := s'], children')
  {
    forall j, r | 0 <= j < |w.svcs| && (j != i || r != role) && Proc(w.svcs[j], r) > 0
      ensures Proc(w.svcs[j], r) in children'
    {
      assert Proc(w.svcs[j], r) != Proc(w.svcs[i], role);
    }
    ProcPut(w.svcs, w.children, i, s', children');
  }

  lemma ReapSlot(w: World, e: Event)
    requires Inv(w) && Legal(w, e) && e.Reap? && Target(w, e).Some?
    ensures var (i, s') := Target(w, e).value;
            var role := if LoggerOf(w.svcs, e.pid).Some? then Logger else Main;
            && SlotOk(s') && Deaf(s') && s'.active && s'.dir == w.svcs[i].dir
            && Proc(w.svcs[i], role) == e.pid && Proc(s', role) <= 0
            && (forall r :: r != role ==> Proc(s', r) == Proc(w.svcs[i], r))
            && (forall d :: Fd(s', d) == Fd(w.svcs[i], d))
  {
    var (i, s') := Target(w, e).value;
    assert SlotOk(w.svcs[i]);
    hide ProcLedger, FdLedger, Inv, Handles;
  }

  /** A slot rewritten in place, in the same directory and with the same descriptors, keeps the invariant. */
  lemma SlotReaped(w: World, i: nat, s: Service, w': World)
    requires Inv(w) && i < |w.svcs| && w.svcs[i].active && SlotOk(s) && Deaf(s) && s.active && s.dir == w.svcs[i].dir
    requires forall e :: Fd(s, e) == Fd(w.svcs[i], e)
    requires w'.svcs == w.svcs[i := s] && w'.fds == Put(w, i, s).fds && ProcLedger(w'.svcs, w'.children)
    ensures Inv(w')
  {
    hide ProcLedger, SlotOk, Deaf, Fd, Handles;
    KeptEnds(w.svcs[i], s, w.fds);
    FdPut(w.svcs, w.fds, i, s);
    hide FdLedger, DistinctEnds;
  }

  lemma HeldIsActive(s: Service, r: Role)
    requires Proc(s, r) > 0
    ensures s.active
  {
  }

  lemma ReapUnheld(w: World, e: Event)
    requires Inv(w) && Legal(w, e) && e.Reap? && Target(w, e).None?
    ensures Inv(Step(w, e))
  {
    hide FdLedger, Handles, DistinctEnds, SlotOk, Deaf;
    forall j, r | 0 <= j < |w.svcs| && Proc(w.svcs[j], r) > 0 ensures Proc(w.svcs[j], r) != e.pid {
    }
  }

  lemma ReapKeeps(w: World, e: Event)
    requires Inv(w) && Legal(w, e) && e.Reap?
    ensures Inv(Step(w, e))
  {
    if Target(w, e).Some? {
      var (i, s') := Target(w, e).value;
      var role := if LoggerOf(w.svcs, e.pid).Some? then Logger else Main;
      ReapSlot(w, e);
      ReapTable(w, e);
      hide AfterExit, AfterLoggerExit, Target, Proc, Fd, Handles, Step, Legal, Inv, SlotOk, Deaf, LoggerOf, MainOf;
      HeldIsActive(w.svcs[i], role);
      Released(w, i, role, s', e.pid, ChildrenAfter(w, e));
      SlotReaped(w, i, s', Step(w, e));
    } else {
      ReapUnheld(w, e);
    }
  }

  lemma ReapTable(w: World, e: Event)
    requires Legal(w, e) && e.Reap? && Target(w, e).Some?
    ensures var (i, s') := Target(w, e).value; var u := Step(w, e);
            && u.svcs == w.svcs[i := s'] && u.fds == Put(w, i, s').fds && u.children == ChildrenAfter(w, e)
            && e.pid > 0 && w.children - {e.pid} <= u.children
  {
    hide AfterExit, AfterLoggerExit, Handles, LoggerOf, MainOf;
  }

  lemma ScanOpenProcs(w: World)
    requires Inv(w)
    ensures ProcLedger(Step(w, ScanOpen).svcs, w.children)
  {
    hide FdLedger, Handles, DistinctEnds, SlotOk;
    var t := Step(w, ScanOpen).svcs;
    assert forall i, r :: 0 <= i < |t| ==> Proc(t[i], r) == Proc(w.svcs[i], r);
  }

  lemma ScanOpenFds(w: World)
    requires Inv(w)
    ensures FdLedger(Step(w, ScanOpen).svcs, w.fds)
  {
    hide ProcLedger, SlotOk;
    var t := Step(w, ScanOpen).svcs;
    forall i | 0 <= i < |w.svcs| ensures Handles(t[i]) == Handles(w.svcs[i]) && DistinctEnds(t[i]) {
      assert DistinctEnds(w.svcs[i]);
      assert forall e :: Fd(t[i], e) == Fd(w.svcs[i], e);
    }
    hide Handles, DistinctEnds;
    forall f | f in w.fds ensures exists i :: 0 <= i < |t| && f in Handles(t[i]) {
      var i :| 0 <= i < |w.svcs| && f in Handles(w.svcs[i]);
      assert f in Handles(t[i]);
    }
  }

  lemma ScanOpenKeeps(w: World)
    requires Inv(w)
    ensures Inv(Step(w, ScanOpen))
  {
    ScanOpenProcs(w);
    ScanOpenFds(w);
    hide ProcLedger, FdLedger;
    var t := Step(w, ScanOpen).svcs;
    assert forall i :: 0 <= i < |t| ==> SlotOk(w.svcs[i]) && SlotOk(t[i]);
  }

  lemma StepKeeps(w: World, e: Event)
    requires Inv(w) && Legal(w, e)
    ensures Inv(Step(w, e))
  {
    match e
    case Tick(_) =>
    case Reap(_, _, _, _, _) => ReapKeeps(w, e);
    case Idle(_) => AsideStep(w, e);
    case Script(_) => AsideStep(w, e);
    case ScanOpen => ScanOpenKeeps(w);
    case Do(i, a) => DoKeeps(w, i, a);
  }

  lemma FreshInv(w: World)
    requires Fresh(w)
    ensures Inv(w)
  {
    assert Handles(SERVICE_ZERO) == {};
  }

  /** In every run of the program a service with a logger has no pipe, so all that is read is for a log file. */
  lemma NoPipeBesideLogger(w: World, es: seq<Event>, i: nat)
    requires Fresh(w) && LegalRun(w, es) && i < |w.svcs|
    requires Run(w, es).svcs[i].active && Run(w, es).svcs[i].hasLog
    ensures Run(w, es).svcs[i].streams.out.readFd < 0 && Run(w, es).svcs[i].streams.err.readFd < 0
  {
    hide ProcLedger, FdLedger, SlotOk, Fresh;
    FreshInv(w);
    RunKeeps(w, es);
    assert Deaf(Run(w, es).svcs[i]);
  }

  /** Both ledgers, the life cycle and the registry hold at every point of every run. */
  lemma {:induction false} RunKeeps(w: World, es: seq<Event>)
    requires Inv(w) && LegalRun(w, es)
    ensures Inv(Run(w, es))
    decreases |es|
  {
    if es != [] {
      RunKeeps(w, es[..|es| - 1]);
      hide Inv, Step, Legal;
      StepKeeps(Run(w, es[..|es| - 1]), es[|es| - 1]);
    }
  }

  /** Rewriting a slot without touching its descriptors leaves the open descriptors alone. */
  lemma SameFds(w: World, i: nat, s: Service)
    requires FdLedger(w.svcs, w.fds) && i < |w.svcs|
    requires forall e :: Fd(s, e) == Fd(w.svcs[i], e)
    ensures Put(w, i, s) == w.(svcs := w.svcs[i := s])
  {
    assert Handles(s) == Handles(w.svcs[i]);
  }

  lemma HeldMain(w: World, i: nat)
    requires Inv(w) && i < |w.svcs| && w.svcs[i].active && w.svcs[i].pid > 0
    ensures w.svcs[i].pid in w.children
  {
    assert Proc(w.svcs[i], Main) == w.svcs[i].pid;
  }

  lemma HeldLogger(w: World, i: nat)
    requires Inv(w) && i < |w.svcs| && w.svcs[i].active && w.svcs[i].logPid > 0
    ensures w.svcs[i].logPid in w.children
  {
    assert Proc(w.svcs[i], Logger) == w.svcs[i].logPid;
  }

  // ---------------------------------------------------------------- what the ledgers buy

  /** Some slot holds the process. */
  ghost predicate Held(svcs: seq<Service>, pid: int) {
    exists i, r :: 0 <= i < |svcs| && Proc(svcs[i], r) == pid
  }

  lemma HeldBySlot(w: World, i: nat)
    requires Inv(w) && i < |w.svcs|
    ensures w.svcs[i].pid > 0 ==> w.svcs[i].pid in w.children && Held(w.svcs, w.svcs[i].pid)
    ensures w.svcs[i].logPid > 0 ==> w.svcs[i].logPid in w.children && Held(w.svcs, w.svcs[i].logPid)
  {
    hide FdLedger;
    assert SlotOk(w.svcs[i]);
    assert w.svcs[i].active ==> Proc(w.svcs[i], Main) == w.svcs[i].pid && Proc(w.svcs[i], Logger) == w.svcs[i].logPid;
  }

  lemma SendsOfSlot(s: Service, a: Action)
    requires a.Cmd? && a.cmd.Send? ==> s.pid > 0
    requires a.KillMain? ==> s.pid > 0
    requires a.KillLogger? ==> s.logPid > 0
    ensures forall g :: g in ActionSends(s, a) ==> g.pid > 0 && (g.pid == s.pid || g.pid == s.logPid)
  {
  }

  /** A signal goes to a process held by a slot, which is a child not waited for, so never to a recycled number. */
  lemma SendsReachChildren(w: World, e: Event)
    requires Inv(w) && Legal(w, e)
    ensures forall g :: g in Sends(w, e) ==> g.pid > 0 && g.pid in w.children && Held(w.svcs, g.pid)
  {
    hide Inv, Handles, Held, Stranded, DepsSatisfied, LegalLaunch, AllowedIo, ActionSends;
    if e.Do? {
      HeldBySlot(w, e.i);
      SendsOfSlot(w.svcs[e.i], e.a);
    } else if e.Reap? && MainOf(w.svcs, e.pid).Some? {
      HeldBySlot(w, MainOf(w.svcs, e.pid).value);
    }
  }

  /** In every run, at every step, each signal sent goes to a child that is then unreaped. */
  lemma {:induction false} SignalsReachChildren(w: World, es: seq<Event>, k: nat)
    requires Inv(w) && LegalRun(w, es) && k < |es|
    ensures LegalRun(w, es[..k]) && Legal(Run(w, es[..k]), es[k])
    ensures forall g :: g in Sends(Run(w, es[..k]), es[k]) ==> g.pid > 0 && g.pid in Run(w, es[..k]).children
  {
    RunPrefix(w, es, k);
    RunKeeps(w, es[..k]);
    SendsReachChildren(Run(w, es[..k]), es[k]);
  }

  /** A reaped child was held in at most one place, and afterwards it is held nowhere. */
  lemma ReapClearsOne(w: World, e: Event, i: nat, r: Role)
    requires Inv(w) && Legal(w, e) && e.Reap? && i < |w.svcs|
    ensures Proc(Step(w, e).svcs[i], r) == if Proc(w.svcs[i], r) == e.pid then -1 else Proc(w.svcs[i], r)
    ensures Proc(w.svcs[i], r) == e.pid ==>
              forall j, q :: 0 <= j < |w.svcs| && (i != j || r != q) ==> Proc(w.svcs[j], q) != e.pid
  {
    var k := Target(w, e);
    if k.Some? {
      ReapSlot(w, e);
      assert SlotOk(k.value.1);
    }
    hide FdLedger, Handles, SlotOk, AfterExit, AfterLoggerExit;
  }

  // ---------------------------------------------------------------- children held by nobody

  lemma LaunchTable(w: World, i: nat, t: int, at: int, o: Launched)
    requires Legal(w, Do(i, Launch(t, at, o)))
    ensures i < |w.svcs| && w.svcs[i].active && LegalLaunch(w, w.svcs[i], o)
    ensures Step(w, Do(i, Launch(t, at, o))).svcs == w.svcs[i := AfterLaunch(w.svcs[i], Seconds(at), o)]
    ensures w.children <= Step(w, Do(i, Launch(t, at, o))).children
  {
    hide Handles, AfterLaunch, DepsSatisfied;
  }

  lemma LaunchProcs(s: Service, t: int, o: Launched)
    requires s.active
    ensures Proc(AfterLaunch(s, t, o), Main) == if o.pid > 0 then o.pid else -1
    ensures Proc(AfterLaunch(s, t, o), Logger) == if o.loggerPid > 0 then o.loggerPid else s.logPid
  {
  }

  /**
   A launch while an old logger of the service lives: the old logger stays a child, and it is held by no slot
   afterwards exactly when a new logger has been started, which takes a service that has a logger.
   */
  lemma LaunchOrphansLoggerIff(w: World, i: nat, t: int, at: int, o: Launched)
    requires Inv(w) && Legal(w, Do(i, Launch(t, at, o))) && w.svcs[i].logPid > 0
    ensures w.svcs[i].logPid in Step(w, Do(i, Launch(t, at, o))).children
    ensures !Held(Step(w, Do(i, Launch(t, at, o))).svcs, w.svcs[i].logPid) <==> o.loggerPid > 0
    ensures o.loggerPid > 0 ==> w.svcs[i].hasLog
  {
    hide FdLedger, Handles, DistinctEnds, SlotOk, Legal, Step, AfterLaunch;
    LaunchTable(w, i, t, at, o);
    var s := w.svcs[i];
    var u := Step(w, Do(i, Launch(t, at, o))).svcs;
    assert Proc(s, Logger) == s.logPid && s.logPid in w.children;
    LaunchProcs(s, Seconds(at), o);
    if o.loggerPid > 0 {
      forall j, r | 0 <= j < |u| ensures Proc(u[j], r) != s.logPid {
        assert r == Main || r == Logger;
        assert j != i ==> Proc(w.svcs[i], Logger) != Proc(w.svcs[j], r);
      }
    } else {
      assert Proc(u[i], Logger) == s.logPid;
    }
  }

  /** A step gives a slot no process but one it held or one that has just been forked. */
  lemma StepProcs(w: World, e: Event, j: nat, r: Role)
    requires Inv(w) && Legal(w, e) && j < |w.svcs|
    ensures Proc(Step(w, e).svcs[j], r) == Proc(w.svcs[j], r) || Proc(Step(w, e).svcs[j], r) <= 0
         || Proc(Step(w, e).svcs[j], r) !in w.children
    ensures !(e.Do? && e.a.Launch?) ==>
              Proc(Step(w, e).svcs[j], r) == Proc(w.svcs[j], r) || Proc(Step(w, e).svcs[j], r) <= 0
  {
    hide FdLedger, ProcLedger, Handles, SlotAfter, AfterExit, AfterLoggerExit, SlotOk, AfterLaunch, Sends;
    match e
    case Do(i, a) =>
      ActionProcs(w.svcs[i], a, r);
      if a.Launch? {
        assert LegalLaunch(w, w.svcs[i], a.o);
      }
    case Reap(_, _, _, _, _) =>
      if Target(w, e).Some? && Target(w, e).value.0 == j {
        ReapSlot(w, e);
      }
    case Tick(_) =>
    case Idle(_) =>
    case Script(_) =>
    case ScanOpen =>
  }

  lemma UnheldStep(w: World, e: Event, pid: int)
    requires Inv(w) && Legal(w, e) && pid > 0 && pid in w.children && !Held(w.svcs, pid) && !(e.Reap? && e.pid == pid)
    ensures pid in Step(w, e).children && !Held(Step(w, e).svcs, pid)
    ensures Step(w, e).sent == w.sent + Sends(w, e) && forall g :: g in Sends(w, e) ==> g.pid != pid
  {
    SendsReachChildren(w, e);
    hide Inv, Legal, Handles, SlotAfter, Target;
    var t := Step(w, e).svcs;
    forall j, r | 0 <= j < |t| ensures Proc(t[j], r) != pid {
      StepProcs(w, e, j, r);
      assert Proc(w.svcs[j], r) != pid;
    }
  }

  /** The process is not waited for. */
  predicate Unreaped(es: seq<Event>, pid: int) {
    forall k :: 0 <= k < |es| ==> !(es[k].Reap? && es[k].pid == pid)
  }

  /** A child held by no slot gets no signal, in any run, shutdown included, and no slot comes to hold it. */
  lemma {:induction false} UnheldUnsignalled(w: World, es: seq<Event>, pid: int)
    requires Inv(w) && LegalRun(w, es) && pid > 0 && pid in w.children && !Held(w.svcs, pid) && Unreaped(es, pid)
    ensures pid in Run(w, es).children && !Held(Run(w, es).svcs, pid)
    ensures w.sent <= Run(w, es).sent && forall g :: g in Run(w, es).sent[|w.sent|..] ==> g.pid != pid
    decreases |es|
  {
    if es != [] {
      hide Inv, Legal, Step, Held, Sends;
      var c, e := es[..|es| - 1], es[|es| - 1];
      UnheldUnsignalled(w, c, pid);
      RunKeeps(w, c);
      UnheldStep(Run(w, c), e, pid);
      var u := Run(w, c);
      assert (u.sent + Sends(u, e))[|w.sent|..] == u.sent[|w.sent|..] + Sends(u, e);
    }
  }
}
