/**
 Why services are stopped, told from the history alone: for want of a logger exactly those whose last launch started
 a logger that has been waited for since, and as removed only those that the last scan has not found.
 */
module Causes {
  import opened Types
  import opened Machine
  import opened Ledger
  import opened Propagation
  import opened Reaping
  import Closure
  import Restart

  /** The last launch of slot `i` is step `k`. */
  ghost predicate LastLaunch(es: seq<Event>, i: nat, k: nat) {
    k < |es| && Restart.Launches(es[k], i) && forall j :: k < j < |es| ==> !Restart.Launches(es[j], i)
  }

  ghost predicate ReapedSince(es: seq<Event>, k: nat, pid: int) {
    exists j :: k < j < |es| && es[j].Reap? && es[j].pid == pid
  }

  /** The last launch of slot `i` started a logger and the service, and that logger has been waited for since. */
  ghost predicate LoggerLost(es: seq<Event>, i: nat) {
    exists k: nat :: LastLaunch(es, i, k) && LostSince(es, k)
  }

  ghost predicate LostSince(es: seq<Event>, k: nat)
    requires k < |es| && es[k].Do? && es[k].a.Launch?
  {
    var o := es[k].a.o;
    o.pid > 0 && o.loggerPid > 0 && ReapedSince(es, k, o.loggerPid)
  }

  /** What the fields of a live slot owe to its last launch, step `k`. */
  ghost predicate OwedTo(s: Service, es: seq<Event>, k: nat)
    requires k < |es| && es[k].Do? && es[k].a.Launch?
  {
    var o := es[k].a.o;
    && o.pid > 0 && s.hasLog == (o.loggerPid > 0) && s.startedAt == Seconds(es[k].a.at)
    && (o.loggerPid > 0 ==> s.logPid == if ReapedSince(es, k, o.loggerPid) then -1 else o.loggerPid)
  }

  ghost predicate Linked(s: Service, es: seq<Event>, i: nat) {
    s.active && s.pid > 0 ==> exists k: nat :: LastLaunch(es, i, k) && OwedTo(s, es, k)
  }

  // ---------------------------------------------------------------- one step

  lemma LastMore(es: seq<Event>, e: Event, i: nat, k: nat)
    requires LastLaunch(es, i, k) && !Restart.Launches(e, i)
    ensures LastLaunch(es + [e], i, k) && (es + [e])[k] == es[k]
  {
  }

  lemma ReapedMore(es: seq<Event>, e: Event, k: nat, pid: int)
    requires k < |es|
    ensures ReapedSince(es + [e], k, pid) <==> ReapedSince(es, k, pid) || (e.Reap? && e.pid == pid)
  {
    var more := es + [e];
    assert more[|es|] == e;
    if j :| k < j < |es| && es[j].Reap? && es[j].pid == pid {
      assert more[j] == es[j];
    }
  }

  lemma LaunchOwes(s: Service, es: seq<Event>, e: Event, i: nat)
    requires Restart.Launches(e, i) && s.active
    ensures Linked(AfterLaunch(s, Seconds(e.a.at), e.a.o), es + [e], i)
  {
    var more := es + [e];
    assert more[|es|] == e && LastLaunch(more, i, |es|);
    assert !ReapedSince(more, |es|, e.a.o.loggerPid);
    LaunchFields(s, Seconds(e.a.at), e.a.o);
    hide AfterLaunch;
    if e.a.o.pid > 0 {
      assert OwedTo(AfterLaunch(s, Seconds(e.a.at), e.a.o), more, |es|);
    }
  }

  lemma LaunchFields(s: Service, t: int, o: Launched)
    ensures var u := AfterLaunch(s, t, o);
            && u.active == s.active && u.hasLog == (o.loggerPid > 0) && (u.pid > 0 <==> o.pid > 0)
            && (o.pid > 0 ==> u.startedAt == t) && (o.loggerPid > 0 ==> u.logPid == o.loggerPid)
  {
  }

  /** The fields that the link is about. */
  predicate SameLink(s: Service, t: Service) {
    t.active && t.pid > 0 ==>
      && s.active && s.pid == t.pid && t.logPid == s.logPid && t.hasLog == s.hasLog && t.startedAt == s.startedAt
  }

  lemma LinkedMore(s: Service, t: Service, es: seq<Event>, e: Event, i: nat)
    requires Linked(s, es, i) && SameLink(s, t) && !Restart.Launches(e, i) && !e.Reap?
    ensures Linked(t, es + [e], i)
  {
    if t.active && t.pid > 0 {
      var k: nat :| LastLaunch(es, i, k) && OwedTo(s, es, k);
      LastMore(es, e, i, k);
      ReapedMore(es, e, k, es[k].a.o.loggerPid);
      assert OwedTo(t, es + [e], k);
    }
  }

  lemma CommandLinks(s: Service, c: Command)
    ensures SameLink(s, CommandAfter(s, c))
  {
    match c
    case Start =>
    case Stop =>
    case Restart =>
    case GoDown =>
    case GoUp(_) =>
    case Once =>
    case Send(_) =>
  }

  lemma IoLinks(s: Service, c: Channel, op: StreamOp)
    ensures SameLink(s, IoAfter(s, c, op))
  {
  }

  lemma ActionLinks(s: Service, a: Action)
    requires !a.Launch? && !a.Finalize?
    ensures SameLink(s, SlotAfter(s, a))
  {
    hide CommandAfter, IoAfter, AfterLaunch;
    match a
    case Cmd(c) => CommandLinks(s, c);
    case Io(c, op) => IoLinks(s, c, op);
    case Terminate(_) =>
    case TerminateLogger =>
    case Defer(_, _) =>
    case ScanSeen =>
    case Register(_) =>
    case Free =>
    case KillMain =>
    case KillLogger =>
  }

  lemma DoLinked(w: World, es: seq<Event>, e: Event, i: nat)
    requires LegalRun(w, es) && Legal(Run(w, es), e) && e.Do? && e.i == i && !e.a.Finalize?
    requires Linked(Run(w, es).svcs[i], es, i)
    ensures Linked(Step(Run(w, es), e).svcs[i], es + [e], i)
  {
    var u := Run(w, es);
    assert Step(u, e).svcs[i] == SlotAfter(u.svcs[i], e.a);
    hide Step, Legal, LegalRun, Run, Linked;
    if e.a.Launch? {
      LaunchOwes(u.svcs[i], es, e, i) by { LaunchedActive(u, e); }
    } else {
      ActionLinks(u.svcs[i], e.a);
      LinkedMore(u.svcs[i], SlotAfter(u.svcs[i], e.a), es, e, i);
    }
  }

  lemma LaunchedActive(u: World, e: Event)
    requires Legal(u, e) && e.Do? && e.a.Launch?
    ensures u.svcs[e.i].active && SlotAfter(u.svcs[e.i], e.a) == AfterLaunch(u.svcs[e.i], Seconds(e.a.at), e.a.o)
  {
    hide LegalLaunch, DepsSatisfied, AfterLaunch;
  }

  lemma ReapFields(u: World, e: Event, i: nat)
    requires Inv(u) && Legal(u, e) && e.Reap? && i < |u.svcs|
    ensures var s, t := u.svcs[i], Step(u, e).svcs[i];
            && t.active == s.active && t.hasLog == s.hasLog && t.startedAt == s.startedAt
            && (s.active ==> t.pid == (if s.pid == e.pid then -1 else s.pid)
                             && t.logPid == (if s.logPid == e.pid then -1 else s.logPid))
  {
    ReapClearsOne(u, e, i, Main);
    ReapClearsOne(u, e, i, Logger);
    hide Inv, Handles, Sends, ChildrenAfter, ClockAfter;
  }

  lemma ReapOwes(s: Service, t: Service, es: seq<Event>, e: Event, i: nat)
    requires Linked(s, es, i) && e.Reap? && e.pid > 0
    requires t.active == s.active && t.hasLog == s.hasLog && t.startedAt == s.startedAt
    requires s.active ==> t.pid == (if s.pid == e.pid then -1 else s.pid)
                          && t.logPid == (if s.logPid == e.pid then -1 else s.logPid)
    ensures Linked(t, es + [e], i)
  {
    if t.active && t.pid > 0 {
      var k: nat :| LastLaunch(es, i, k) && OwedTo(s, es, k);
      LastMore(es, e, i, k);
      ReapedMore(es, e, k, es[k].a.o.loggerPid);
      hide LastLaunch, ReapedSince;
      assert OwedTo(t, es + [e], k);
    }
  }

  lemma ReapLinked(w: World, es: seq<Event>, e: Event, i: nat)
    requires LegalRun(w, es) && Inv(Run(w, es)) && Legal(Run(w, es), e) && e.Reap? && i < |w.svcs|
    requires Linked(Run(w, es).svcs[i], es, i)
    ensures Linked(Step(Run(w, es), e).svcs[i], es + [e], i)
  {
    var u := Run(w, es);
    var s, t := u.svcs[i], Step(u, e).svcs[i];
    ReapFields(u, e, i);
    assert e.pid > 0;
    hide Step, Legal, LegalRun, Run, Inv, Linked;
    ReapOwes(s, t, es, e, i);
  }

  lemma OtherLinked(w: World, es: seq<Event>, e: Event, i: nat)
    requires LegalRun(w, es) && Legal(Run(w, es), e) && !e.Reap? && i < |w.svcs| && (e.Do? ==> e.i != i)
    requires Linked(Run(w, es).svcs[i], es, i)
    ensures Linked(Step(Run(w, es), e).svcs[i], es + [e], i)
  {
    Restart.Untouched(Run(w, es), e, i);
    var s, t := Run(w, es).svcs[i], Step(Run(w, es), e).svcs[i];
    assert SameLink(s, t);
    hide Step, Legal, LegalRun, Run, Linked;
    LinkedMore(s, t, es, e, i);
  }

  lemma StepLinked(w: World, es: seq<Event>, e: Event, i: nat)
    requires LegalRun(w, es) && Inv(Run(w, es)) && Legal(Run(w, es), e) && !(e.Do? && e.a.Finalize?) && i < |w.svcs|
    requires Linked(Run(w, es).svcs[i], es, i)
    ensures Linked(Step(Run(w, es), e).svcs[i], es + [e], i)
  {
    hide Inv, Legal, Step, Linked, LegalRun, Run;
    if e.Reap? {
      ReapLinked(w, es, e, i);
    } else if e.Do? && e.i == i {
      DoLinked(w, es, e, i);
    } else {
      OtherLinked(w, es, e, i);
    }
  }

  lemma EmptyLinked(w: World, i: nat)
    requires Fresh(w) && i < |w.svcs|
    ensures Linked(w.svcs[i], [], i)
  {
  }

  /** In every run up to the final sweep, live slots are linked to their launches. */
  lemma {:induction false} RunLinked(w: World, es: seq<Event>, i: nat)
    requires Fresh(w) && LegalRun(w, es) && Restart.NoFinalize(es) && i < |w.svcs|
    ensures Inv(Run(w, es)) && Linked(Run(w, es).svcs[i], es, i)
    decreases |es|
  {
    hide Inv, Legal, Step, Linked, Fresh;
    FreshInv(w);
    RunKeeps(w, es);
    if es == [] {
      EmptyLinked(w, i);
    } else {
      var c, e := es[..|es| - 1], es[|es| - 1];
      assert es == c + [e];
      RunLinked(w, c, i);
      StepLinked(w, c, e, i);
    }
  }

  // ---------------------------------------------------------------- the theorems

  lemma LostIff(w: World, es: seq<Event>, i: nat)
    requires Fresh(w) && LegalRun(w, es) && Restart.NoFinalize(es) && i < |w.svcs|
    ensures MayTerminate(Run(w, es).svcs, i, LostLogger) <==>
              Run(w, es).svcs[i].state == Running && LoggerLost(es, i)
  {
    RunLinked(w, es, i);
    assert SlotOk(Run(w, es).svcs[i]);
    hide Fresh, ProcLedger, FdLedger, Deaf, DistinctEnds, LegalRun, Run, ReapedSince;
    if k: nat :| LastLaunch(es, i, k) && LostSince(es, k) {
      LastIsOne(es, i, k);
    }
  }

  lemma LastIsOne(es: seq<Event>, i: nat, k: nat)
    requires LastLaunch(es, i, k)
    ensures forall j: nat :: LastLaunch(es, i, j) ==> j == k
  {
  }

  /** A service is stopped for want of its logger only when that logger has been started and has ended since. */
  lemma LostLoggerOnly(w: World, es: seq<Event>, i: nat, n: nat)
    requires Fresh(w) && LegalRun(w, es) && n < |es| && Restart.NoFinalize(es[..n])
    requires es[n] == Do(i, Terminate(LostLogger))
    ensures LoggerLost(es[..n], i)
  {
    RunPrefix(w, es, n);
    LostIff(w, es[..n], i);
    hide Fresh, LoggerLost;
  }

  /** When what has lost its logger has been stopped, nothing of the kind is left. */
  lemma NoneLeft(m: seq<Service>, orphans: seq<nat>, i: nat)
    requires AllOrphans(m, orphans) && i < |m|
    ensures !MayTerminate(Marked(m, Members(orphans)), i, LostLogger)
  {
    if i !in Members(orphans) {
      assert !LacksLogger(m[i]);
    }
  }

  lemma PhaseStartsNothing(reaps: seq<Event>, idle: int, doomed: seq<nat>, orphans: seq<nat>)
    requires AllReaps(reaps)
    ensures Restart.NoFinalize(ReapEvents(reaps, idle, doomed, orphans))
  {
  }

  /** And conversely: after a reaping phase no running service is left whose launch's logger has been waited for. */
  lemma NoLostLoggerRuns(w: World, es: seq<Event>, reaps: seq<Event>, idle: int, doomed: seq<nat>,
                         orphans: seq<nat>, i: nat)
    requires Fresh(w) && LegalRun(w, es) && Restart.NoFinalize(es) && i < |w.svcs|
    requires ReapPhase(Run(w, es), reaps, doomed, orphans)
    requires LegalRun(Run(w, es), ReapEvents(reaps, idle, doomed, orphans))
    ensures var all := es + ReapEvents(reaps, idle, doomed, orphans);
            && LegalRun(w, all)
            && (Run(w, all).svcs[i].state == Running ==> !LoggerLost(all, i))
  {
    hide Fresh, LoggerLost, ReapEvents, LegalRun, Run, AllOrphans, AllDoomed, SomeUnrequested, MayTerminate;
    var phase := ReapEvents(reaps, idle, doomed, orphans);
    RunConcat(w, es, phase);
    Closure.PhaseTable(Run(w, es), reaps, idle, doomed, orphans);
    PhaseStartsNothing(reaps, idle, doomed, orphans);
    NoneLeft(Marked(Run(Run(w, es), reaps).svcs, Members(doomed)), orphans, i);
    LostIff(w, es + phase, i);
  }

  // ---------------------------------------------------------------- removal

  /** Slot `i` has been found by a scan, or filled by one. */
  predicate Finds(e: Event, i: nat) {
    e.Do? && e.i == i && (e.a.ScanSeen? || e.a.Register?)
  }

  /** A scan has begun at step `k` and has not found slot `i` since. */
  ghost predicate Unfound(es: seq<Event>, i: nat) {
    exists k :: 0 <= k < |es| && es[k].ScanOpen? && forall j :: k < j < |es| ==> !Finds(es[j], i)
  }

  lemma UnfoundMore(es: seq<Event>, e: Event, i: nat)
    ensures Unfound(es, i) && !Finds(e, i) ==> Unfound(es + [e], i)
    ensures e.ScanOpen? ==> Unfound(es + [e], i)
  {
    var more := es + [e];
    assert more[|es|] == e;
    if Unfound(es, i) && !Finds(e, i) {
      var k :| 0 <= k < |es| && es[k].ScanOpen? && forall j :: k < j < |es| ==> !Finds(es[j], i);
      assert more[k] == es[k] && forall j :: k < j < |more| ==> !Finds(more[j], i);
    }
  }

  /** Presence is lost in scans only. */
  lemma KeepsPresence(w: World, e: Event, i: nat)
    requires Legal(w, e) && i < |w.svcs| && Step(w, e).svcs[i].active && !Step(w, e).svcs[i].present
    ensures !Finds(e, i) && (e.ScanOpen? || (w.svcs[i].active && !w.svcs[i].present))
  {
    hide Handles, Allowed, Sends, ChildrenAfter, ClockAfter, AfterExit, AfterLoggerExit, SlotAfter;
    if e.Do? && e.i == i {
      ActionKeepsPresence(w.svcs[i], e.a);
    } else if e.Reap? && Target(w, e).Some? && Target(w, e).value.0 == i {
      ExitKeepsPresence(w.svcs[i], e.status, Seconds(e.at));
    }
  }

  predicate SamePresence(s: Service, t: Service) {
    t.active == s.active && t.present == s.present
  }

  lemma StoppedKeepsPresence(s: Service)
    ensures SamePresence(s, Stopped(s))
  {
  }

  lemma LoggerStoppedKeepsPresence(s: Service)
    ensures SamePresence(s, LoggerStopped(s))
  {
  }

  lemma FinalKeepsPresence(s: Service)
    ensures SamePresence(s, Finalized(s))
  {
  }

  lemma IoKeepsPresence(s: Service, c: Channel, op: StreamOp)
    ensures SamePresence(s, IoAfter(s, c, op))
  {
  }

  lemma LaunchKeepsPresence(s: Service, t: int, o: Launched)
    ensures SamePresence(s, AfterLaunch(s, t, o))
  {
  }

  lemma RegisteredPresent(r: Registration)
    ensures Registered(r).present
  {
  }

  lemma ActionKeepsPresence(s: Service, a: Action)
    requires SlotAfter(s, a).active && !SlotAfter(s, a).present
    ensures s.active && !s.present && !a.ScanSeen? && !a.Register?
  {
    hide CommandAfter, IoAfter, AfterLaunch, Registered, Stopped, LoggerStopped, Finalized, WithoutFds;
    match a
    case Cmd(c) => CommandKeepsPresence(s, c);
    case Io(c, op) => IoKeepsPresence(s, c, op);
    case Launch(_, at, o) => LaunchKeepsPresence(s, Seconds(at), o);
    case Terminate(_) => StoppedKeepsPresence(s);
    case TerminateLogger => LoggerStoppedKeepsPresence(s);
    case Defer(_, _) =>
    case ScanSeen =>
    case Register(r) => RegisteredPresent(r);
    case Free =>
    case KillMain =>
    case KillLogger =>
    case Finalize => FinalKeepsPresence(s);
  }

  lemma CommandKeepsPresence(s: Service, c: Command)
    ensures SamePresence(s, CommandAfter(s, c))
  {
    match c
    case Start =>
    case Stop =>
    case Restart =>
    case GoDown =>
    case GoUp(_) =>
    case Once =>
    case Send(_) =>
  }

  lemma ExitKeepsPresence(s: Service, status: int, t: int)
    ensures AfterExit(s, status, t).active == AfterLoggerExit(s).active == s.active
    ensures AfterExit(s, status, t).present == AfterLoggerExit(s).present == s.present
  {
  }

  lemma {:induction false} MissingIsUnfound(w: World, es: seq<Event>, i: nat)
    requires Fresh(w) && LegalRun(w, es) && i < |w.svcs|
    ensures Run(w, es).svcs[i].active && !Run(w, es).svcs[i].present ==> Unfound(es, i)
    decreases |es|
  {
    hide Legal, Step, Unfound, Finds;
    if es != [] {
      var c, e := es[..|es| - 1], es[|es| - 1];
      assert es == c + [e];
      MissingIsUnfound(w, c, i);
      if Run(w, es).svcs[i].active && !Run(w, es).svcs[i].present {
        KeepsPresence(Run(w, c), e, i);
        UnfoundMore(c, e, i);
      }
    }
  }

  /** A service is stopped as removed, and a slot given back, only when the last scan has not found the service. */
  lemma RemovedOnly(w: World, es: seq<Event>, i: nat, n: nat)
    requires Fresh(w) && LegalRun(w, es) && n < |es|
    requires es[n] == Do(i, Terminate(Removed)) || es[n] == Do(i, Free)
    ensures Unfound(es[..n], i)
  {
    RunPrefix(w, es, n);
    MissingIsUnfound(w, es[..n], i);
    hide Fresh, Unfound, LegalRun, Run;
  }
}
