/**
 How often and how soon a service is started again: the amortised bound on starts, what the circuit breaker
 counts, and how long a slot waits after each kind of exit. All of it is about arbitrary legal runs.
 */
module Restart {
  import opened Types
  import opened Machine
  import opened Ledger

  /** The main process of slot `i` is reaped. */
  predicate ExitOf(w: World, e: Event, i: nat) {
    e.Reap? && LoggerOf(w.svcs, e.pid).None? && MainOf(w.svcs, e.pid) == Some(i)
  }

  predicate Launches(e: Event, i: nat) {
    e.Do? && e.i == i && e.a.Launch?
  }

  predicate Starts(e: Event, i: nat) {
    e.Do? && e.i == i && e.a.Launch? && e.a.o.pid > 0
  }

  /** A `start` or `up` command for slot `i`. */
  predicate Resumes(e: Event, i: nat) {
    e.Do? && e.i == i && e.a.Cmd? && (e.a.cmd.Start? || e.a.cmd.GoUp?)
  }

  predicate Registers(e: Event, i: nat) {
    e.Do? && e.i == i && e.a.Register?
  }

  /** The exit of such a service counts: it was not asked for, and the service does not run just once. */
  predicate Unasked(s: Service) {
    !s.stopping && !s.once
  }

  predicate LongExit(w: World, e: Event, i: nat)
    requires i < |w.svcs|
  {
    ExitOf(w, e, i) && Unasked(w.svcs[i]) && Seconds(e.at) - w.svcs[i].startedAt > 60
  }

  /** What happened to slot `i` since its registration or its last counted exit from a run over 60 seconds. */
  datatype Tally = Tally(starts: nat, resumes: nat, counted: nat, uncounted: nat)

  function TallyStep(n: Tally, w: World, e: Event, i: nat): Tally
    requires i < |w.svcs|
  {
    if Registers(e, i) || LongExit(w, e, i) then Tally(0, 0, 0, 0)
    else if ExitOf(w, e, i) then
      if Unasked(w.svcs[i]) then n.(counted := n.counted + 1) else n.(uncounted := n.uncounted + 1)
    else if Starts(e, i) then n.(starts := n.starts + 1)
    else if Resumes(e, i) then n.(resumes := n.resumes + 1)
    else n
  }

  function Tallied(w: World, es: seq<Event>, i: nat): Tally
    requires LegalRun(w, es) && i < |w.svcs|
    decreases |es|
  {
    if es == [] then Tally(0, 0, 0, 0)
    else TallyStep(Tallied(w, es[..|es| - 1], i), Run(w, es[..|es| - 1]), es[|es| - 1], i)
  }

  /** The program's last sweep over the table, after which nothing is started. */
  predicate NoFinalize(es: seq<Event>) {
    forall k :: 0 <= k < |es| ==> !(es[k].Do? && es[k].a.Finalize?)
  }

  function Bit(b: bool): nat {
    if b then 1 else 0
  }

  /**
   The link between the history of a slot and its fields: every start has ended in a counted or an
   uncounted exit or is still running, the counter is the number of counted exits, and every exit that
   latched the slot except the last has been paid for by a command.
   */
  ghost predicate Accounted(s: Service, n: Tally) {
    s.active ==>
      && n.starts == n.counted + n.uncounted + Bit(s.pid > 0)
      && s.restarts == n.counted
      && n.uncounted + (if n.counted > MAX_RESTARTS then n.counted - MAX_RESTARTS else 0)
         <= n.resumes + Bit(s.restartAt == NEVER)
  }

  /** Steps that are not about slot `i` leave it alone, but for the scan's mark. */
  lemma Untouched(w: World, e: Event, i: nat)
    requires Legal(w, e) && i < |w.svcs|
    requires e.Do? ==> e.i != i
    requires e.Reap? ==> Target(w, e).None? || Target(w, e).value.0 != i
    ensures Step(w, e).svcs[i] == w.svcs[i] || Step(w, e).svcs[i] == w.svcs[i].(present := false)
  {
    hide Handles, Sends, ChildrenAfter, ClockAfter, Allowed;
  }

  lemma CommandFields(s: Service, c: Command)
    ensures var s' := CommandAfter(s, c);
            && s'.active == s.active && s'.pid == s.pid && s'.restarts == s.restarts
            && s'.restartAt == if c.Start? then 0 else if c.GoUp? then Seconds(c.at) else s.restartAt
  {
    match c
    case GoDown =>
    case _ =>
  }

  lemma IoFields(s: Service, c: Channel, op: StreamOp)
    ensures var s' := IoAfter(s, c, op);
            s'.active == s.active && s'.pid == s.pid && s'.restarts == s.restarts && s'.restartAt == s.restartAt
  {
  }

  /** Apart from launches, exits and registrations, only deferring and `start` or `up` move the start time. */
  lemma ActionFields(s: Service, a: Action)
    requires !a.Launch? && !a.Register? && !a.Finalize?
    ensures var s' := SlotAfter(s, a);
            && s'.active == (s.active && !a.Free?) && s'.pid == s.pid && s'.restarts == s.restarts
            && s'.restartAt == if a.Defer? then Seconds(a.at) + 1
                               else if a == Cmd(Start) then 0
                               else if a.Cmd? && a.cmd.GoUp? then Seconds(a.cmd.at)
                               else s.restartAt
  {
    hide CommandAfter, AfterLaunch, IoAfter;
    match a
    case Cmd(c) => CommandFields(s, c);
    case Io(c, op) => IoFields(s, c, op);
    case _ =>
  }

  lemma AccountedLaunch(s: Service, t: int, o: Launched, n: Tally)
    requires s.active && SlotOk(s) && s.pid <= 0 && s.restartAt <= t < NEVER - BACKOFF_SHORT && Accounted(s, n)
    ensures Accounted(AfterLaunch(s, t, o), if o.pid > 0 then n.(starts := n.starts + 1) else n)
  {
  }

  lemma AccountedExit(s: Service, status: int, t: int, n: Tally)
    requires s.active && SlotOk(s) && s.pid > 0 && Accounted(s, n)
    ensures Accounted(AfterExit(s, status, t),
                      if !Counted(s) then n.(uncounted := n.uncounted + 1)
                      else if LongRun(s, t) then Tally(0, 0, 0, 0)
                      else n.(counted := n.counted + 1))
  {
  }

  lemma AccountedDo(w: World, i: nat, a: Action, n: Tally)
    requires i < |w.svcs| && SlotOk(w.svcs[i]) && Allowed(w, i, a) && !a.Finalize? && Accounted(w.svcs[i], n)
    ensures Accounted(SlotAfter(w.svcs[i], a), TallyStep(n, w, Do(i, a), i))
  {
    var s := w.svcs[i];
    hide DepsSatisfied, LegalLaunch, Handles, Stranded, AllowedIo;
    if a.Launch? {
      hide AfterLaunch;
      AccountedLaunch(s, Seconds(a.at), a.o, n);
    } else if !a.Register? {
      ActionFields(s, a);
      assert a.Defer? ==> s.restartAt < NEVER;
      hide SlotAfter;
    }
  }

  lemma ExitSlot(w: World, e: Event, i: nat)
    requires Legal(w, e) && ExitOf(w, e, i)
    ensures w.svcs[i].active && w.svcs[i].pid > 0
    ensures Step(w, e).svcs[i] == AfterExit(w.svcs[i], e.status, Seconds(e.at))
  {
    hide Handles, AfterExit;
  }

  lemma OtherAccounted(w: World, e: Event, i: nat, n: Tally)
    requires Legal(w, e) && i < |w.svcs| && Accounted(w.svcs[i], n)
    requires !(e.Do? && e.i == i) && !ExitOf(w, e, i)
    ensures Accounted(Step(w, e).svcs[i], n)
  {
    if e.Reap? && Target(w, e).Some? && Target(w, e).value.0 == i {
      assert Step(w, e).svcs[i] == AfterLoggerExit(w.svcs[i]);
    } else {
      Untouched(w, e, i);
    }
  }

  lemma StepAccounted(w: World, e: Event, i: nat, n: Tally)
    requires Legal(w, e) && i < |w.svcs| && SlotOk(w.svcs[i]) && Accounted(w.svcs[i], n)
    requires !(e.Do? && e.a.Finalize?)
    ensures Accounted(Step(w, e).svcs[i], TallyStep(n, w, e, i))
  {
    hide Handles, Accounted, SlotOk, SlotAfter, AfterExit, Allowed;
    if e.Do? && e.i == i {
      AccountedDo(w, i, e.a, n);
    } else if ExitOf(w, e, i) {
      ExitSlot(w, e, i);
      AccountedExit(w.svcs[i], e.status, Seconds(e.at), n);
    } else {
      OtherAccounted(w, e, i, n);
    }
  }

  lemma {:induction false} RunAccounted(w: World, es: seq<Event>, i: nat)
    requires Inv(w) && i < |w.svcs| && !w.svcs[i].active
    requires LegalRun(w, es) && NoFinalize(es)
    ensures Accounted(Run(w, es).svcs[i], Tallied(w, es, i))
    decreases |es|
  {
    if es != [] {
      var c := es[..|es| - 1];
      RunAccounted(w, c, i);
      RunKeeps(w, c);
      hide Step, Legal, Accounted, SlotOk, TallyStep, ProcLedger, FdLedger;
      StepAccounted(Run(w, c), es[|es| - 1], i, Tallied(w, c, i));
    }
  }

  /**
   The amortised bound. In every run and for every registration, the starts since the registration or since
   the last counted exit of a run longer than 60 seconds are at most six more than the `start` and `up`
   commands given in that stretch.
   */
  lemma StartsBounded(w: World, es: seq<Event>, i: nat)
    requires Inv(w) && i < |w.svcs| && !w.svcs[i].active
    requires LegalRun(w, es) && NoFinalize(es) && Run(w, es).svcs[i].active
    ensures Tallied(w, es, i).starts <= 6 + Tallied(w, es, i).resumes
  {
    RunAccounted(w, es, i);
    RunKeeps(w, es);
    assert SlotOk(Run(w, es).svcs[i]);
  }

  /**
   What trips the breaker: a counted exit fails the service for good exactly when its run was no longer
   than 60 seconds and at least five counted exits came before it in the stretch, however long ago.
   */
  lemma BreakerCountsConsecutiveRuns(w: World, es: seq<Event>, i: nat, e: Event)
    requires Inv(w) && i < |w.svcs| && !w.svcs[i].active
    requires LegalRun(w, es) && NoFinalize(es) && Legal(Run(w, es), e) && ExitOf(Run(w, es), e, i)
    requires Unasked(Run(w, es).svcs[i])
    ensures var s := Step(Run(w, es), e).svcs[i];
            (s.state == Failed && s.restartAt == NEVER <==>
              !LongExit(Run(w, es), e, i) && Tallied(w, es, i).counted >= 5)
  {
    RunAccounted(w, es, i);
    ExitSlot(Run(w, es), e, i);
  }

  // ---------------------------------------------------------------- how soon

  /** Nobody resumes slot `i` or registers a new service in it. */
  predicate Unattended(es: seq<Event>, i: nat) {
    forall k :: 0 <= k < |es| ==> !Resumes(es[k], i) && !Registers(es[k], i)
  }

  predicate NoStart(es: seq<Event>, i: nat) {
    forall k :: 0 <= k < |es| ==> !Starts(es[k], i)
  }

  ghost predicate Waiting(s: Service, until: int) {
    s.active ==> s.pid <= 0 && s.restartAt >= until
  }

  lemma StepWaiting(w: World, e: Event, i: nat, until: int)
    requires Legal(w, e) && i < |w.svcs| && Waiting(w.svcs[i], until) && until <= NEVER
    requires !Resumes(e, i) && !Registers(e, i) && !Starts(e, i)
    ensures Waiting(Step(w, e).svcs[i], until)
  {
    hide Handles, SlotAfter, Allowed, AfterExit, Sends, ChildrenAfter, ClockAfter;
    if e.Do? && e.i == i {
      ActionWaiting(w, i, e.a, until);
    } else if e.Reap? && Target(w, e).Some? && Target(w, e).value.0 == i {
      assert Step(w, e).svcs[i] == AfterLoggerExit(w.svcs[i]);
      LoggerExitWaiting(w.svcs[i], until);
    } else {
      Untouched(w, e, i);
      UnlistedWaiting(w.svcs[i], until);
    }
  }

  lemma ActionWaiting(w: World, i: nat, a: Action, until: int)
    requires i < |w.svcs| && Allowed(w, i, a) && Waiting(w.svcs[i], until) && until <= NEVER
    requires !Resumes(Do(i, a), i) && !a.Register? && (a.Launch? ==> a.o.pid <= 0)
    ensures Waiting(SlotAfter(w.svcs[i], a), until)
  {
    hide Handles, SlotAfter, DepsSatisfied, LegalLaunch, Stranded, AllowedIo, AfterLaunch;
    if a.Launch? {
      LaunchFields(w.svcs[i], Seconds(a.at), a.o);
      LaunchSlotAfter(w.svcs[i], a);
    } else if a.Finalize? {
      FinalizeFields(w.svcs[i]);
    } else {
      ActionFields(w.svcs[i], a);
    }
  }

  lemma LoggerExitWaiting(s: Service, until: int)
    requires Waiting(s, until)
    ensures Waiting(AfterLoggerExit(s), until)
  {
  }

  lemma UnlistedWaiting(s: Service, until: int)
    requires Waiting(s, until)
    ensures Waiting(s.(present := false), until)
  {
  }

  lemma LaunchFields(s: Service, t: int, o: Launched)
    ensures AfterLaunch(s, t, o).active == s.active
    ensures o.pid <= 0 ==> AfterLaunch(s, t, o).pid <= 0 && AfterLaunch(s, t, o).restartAt == t + BACKOFF_SHORT
  {
  }

  lemma LaunchSlotAfter(s: Service, a: Action)
    requires a.Launch?
    ensures SlotAfter(s, a) == AfterLaunch(s, Seconds(a.at), a.o)
  {
    hide AfterLaunch;
  }

  lemma FinalizeFields(s: Service)
    ensures SlotAfter(s, Finalize).pid <= 0 && SlotAfter(s, Finalize).restartAt == s.restartAt
  {
  }

  /** A slot left unattended keeps waiting until it is started. */
  lemma {:induction false} RunWaiting(w: World, es: seq<Event>, i: nat, until: int)
    requires LegalRun(w, es) && i < |w.svcs| && Waiting(w.svcs[i], until) && until <= NEVER
    requires Unattended(es, i) && NoStart(es, i)
    ensures Waiting(Run(w, es).svcs[i], until)
    decreases |es|
  {
    if es != [] {
      RunWaiting(w, es[..|es| - 1], i, until);
      hide Step, Legal, Waiting;
      StepWaiting(Run(w, es[..|es| - 1]), es[|es| - 1], i, until);
    }
  }

  /** The first start of an unattended slot does not come before its start time. */
  lemma FirstStart(w: World, es: seq<Event>, i: nat, until: int, k: nat)
    requires LegalRun(w, es) && i < |w.svcs| && Waiting(w.svcs[i], until) && until <= NEVER
    requires k < |es| && Unattended(es[..k], i) && NoStart(es[..k], i) && Starts(es[k], i)
    ensures Seconds(es[k].a.at) >= until
  {
    RunPrefix(w, es, k);
    RunWaiting(w, es[..k], i, until);
  }

  /** It was asked for, was the one run of a `once` service, or came within 60 seconds after five that counted. */
  predicate Latches(s: Service, t: int) {
    s.stopping || s.once || (s.restarts >= 5 && t - s.startedAt <= 60)
  }

  /**
   After an exit that was asked for, was the one run of a `once` service or tripped the breaker, an
   unattended slot is never started again, in any run.
   */
  lemma LatchedExit(w: World, e: Event, es: seq<Event>, i: nat, k: nat)
    requires Legal(w, e) && i < |w.svcs| && ExitOf(w, e, i)
    requires Latches(w.svcs[i], Seconds(e.at))
    requires LegalRun(Step(w, e), es) && Unattended(es, i) && k < |es|
    ensures !Starts(es[k], i)
    decreases k
  {
    forall j | 0 <= j < k ensures !Starts(es[j], i) {
      LatchedExit(w, e, es, i, j);
    }
    if Starts(es[k], i) {
      ExitSlot(w, e, i);
      RunPrefix(Step(w, e), es, k);
      FirstStart(Step(w, e), es, i, NEVER, k);
    }
  }

  /**
   An exit latches its slot exactly when it was asked for at the moment it is reaped, was the run of a `once`
   service, or tripped the breaker: a stop whose mark a scan has cleared before the exit is reaped is undone.
   */
  lemma ExitLatchesIff(w: World, e: Event, i: nat)
    requires Legal(w, e) && ExitOf(w, e, i)
    ensures var s, s' := w.svcs[i], Step(w, e).svcs[i];
            s'.restartAt == 0x7fff_ffff_ffff_ffff <==> Latches(s, Seconds(e.at))
  {
    ExitSlot(w, e, i);
    assert Later(w, e.at);
    hide Step, Legal;
  }

  /**
   After any other exit, reaped at time `t`, the next start of an unattended slot is at least 2 seconds
   later, and at least 10 seconds later after the fifth counted exit in a row; the 60 second delay never
   applies.
   */
  lemma SpacedExit(w: World, e: Event, es: seq<Event>, i: nat, k: nat)
    requires Legal(w, e) && i < |w.svcs| && ExitOf(w, e, i)
    requires !Latches(w.svcs[i], Seconds(e.at))
    requires LegalRun(Step(w, e), es)
    requires k < |es| && Unattended(es[..k], i) && NoStart(es[..k], i) && Starts(es[k], i)
    ensures var r := Step(w, e).svcs[i].restarts;
            && r == (if Seconds(e.at) - w.svcs[i].startedAt > 60 then 0 else w.svcs[i].restarts + 1) <= 5
            && Seconds(es[k].a.at) >= Seconds(e.at) + (if r < 5 then 2 else 10)
            && Step(w, e).svcs[i].restartAt == Seconds(e.at) + (if r < 5 then 2 else 10)
  {
    ExitSlot(w, e, i);
    FirstStart(Step(w, e), es, i, Step(w, e).svcs[i].restartAt, k);
  }

  /** A failed launch is tried again after two seconds, not before, and a deferred one after one second. */
  lemma TriedAgain(w: World, e: Event, es: seq<Event>, i: nat, k: nat)
    requires Legal(w, e) && e.Do? && e.i == i && ((e.a.Launch? && e.a.o.pid <= 0) || e.a.Defer?)
    requires LegalRun(Step(w, e), es)
    requires k < |es| && Unattended(es[..k], i) && NoStart(es[..k], i) && Starts(es[k], i)
    ensures var wait := if e.a.Launch? then 2 else 1;
            && Step(w, e).svcs[i].restartAt == Seconds(e.a.at) + wait
            && Seconds(es[k].a.at) >= Seconds(e.a.at) + wait
  {
    TryWaits(w, e, i);
    hide Legal, Step, Waiting, Seconds;
    FirstStart(Step(w, e), es, i, Step(w, e).svcs[i].restartAt, k);
  }

  lemma TryWaits(w: World, e: Event, i: nat)
    requires Legal(w, e) && e.Do? && e.i == i && ((e.a.Launch? && e.a.o.pid <= 0) || e.a.Defer?)
    ensures i < |w.svcs|
    ensures var s := Step(w, e).svcs[i];
            && s.restartAt == Seconds(e.a.at) + (if e.a.Launch? then 2 else 1) && s.restartAt <= NEVER
            && Waiting(s, s.restartAt)
  {
    hide Handles, DepsSatisfied, LegalLaunch, AfterLaunch, Sends, ChildrenAfter;
    if e.a.Launch? {
      LaunchFields(w.svcs[i], Seconds(e.a.at), e.a.o);
    }
  }

  // ---------------------------------------------------------------- stopping and restarting by command

  predicate ScanSees(e: Event, i: nat) {
    e.Do? && e.i == i && e.a.ScanSeen?
  }

  /** The stop mark of slot `i` is taken away: a scan finds the service, or a command resumes it. */
  predicate Clears(e: Event, i: nat) {
    ScanSees(e, i) || Resumes(e, i)
  }

  predicate Cleared(es: seq<Event>, i: nat) {
    exists k :: 0 <= k < |es| && Clears(es[k], i)
  }

  /** Slot `i` is told to stop. */
  predicate Marks(e: Event, i: nat) {
    e.Do? && e.i == i && (e.a.Terminate? || (e.a.Cmd? && (e.a.cmd.Stop? || e.a.cmd.Restart? || e.a.cmd.GoDown?)))
  }

  lemma CommandStopping(s: Service, c: Command)
    requires !c.Stop? && !c.Restart? && !c.GoDown?
    ensures CommandAfter(s, c).stopping == (s.stopping && !c.Start? && !c.GoUp?)
  {
    match c
    case Start =>
    case GoUp(_) =>
    case Once =>
    case Send(_) =>
  }

  lemma IoStopping(s: Service, c: Channel, op: StreamOp)
    ensures IoAfter(s, c, op).stopping == s.stopping
  {
  }

  lemma LaunchStopping(s: Service, t: int, o: Launched)
    ensures AfterLaunch(s, t, o).stopping == s.stopping
  {
  }

  lemma ActionStopping(s: Service, i: nat, a: Action)
    requires !Marks(Do(i, a), i) && !a.Register?
    ensures SlotAfter(s, a).stopping == (s.stopping && !Clears(Do(i, a), i))
  {
    hide CommandAfter, IoAfter, AfterLaunch, Registered, Stopped;
    match a
    case Cmd(c) => CommandStopping(s, c);
    case Io(c, op) => IoStopping(s, c, op);
    case Launch(_, at, o) => LaunchStopping(s, Seconds(at), o);
    case TerminateLogger =>
    case Defer(_, _) =>
    case ScanSeen =>
    case Free =>
    case KillMain =>
    case KillLogger =>
    case Finalize =>
  }

  lemma ExitStopping(s: Service, status: int, t: int)
    ensures AfterExit(s, status, t).stopping == s.stopping && AfterLoggerExit(s).stopping == s.stopping
  {
  }

  lemma StepStopping(w: World, e: Event, i: nat)
    requires Legal(w, e) && i < |w.svcs| && !Marks(e, i) && !Registers(e, i)
    ensures Step(w, e).svcs[i].stopping == (w.svcs[i].stopping && !Clears(e, i))
  {
    hide Handles, SlotAfter, Allowed, AfterExit, AfterLoggerExit, Sends, ChildrenAfter, ClockAfter;
    if e.Do? && e.i == i {
      ActionStopping(w.svcs[i], i, e.a);
    } else if e.Reap? && Target(w, e).Some? && Target(w, e).value.0 == i {
      ExitStopping(w.svcs[i], e.status, Seconds(e.at));
    } else {
      Untouched(w, e, i);
    }
  }

  lemma ClearedMore(c: seq<Event>, e: Event, i: nat)
    ensures Cleared(c + [e], i) <==> Cleared(c, i) || Clears(e, i)
  {
    hide Clears;
    var es := c + [e];
    assert es[|c|] == e;
    if Cleared(c, i) {
      var k :| 0 <= k < |c| && Clears(c[k], i);
      assert Clears(es[k], i);
    }
  }

  /** While nobody marks it again, a slot stays marked exactly as long as nothing clears the mark. */
  lemma {:induction false} StoppingIff(w: World, es: seq<Event>, i: nat)
    requires LegalRun(w, es) && i < |w.svcs|
    requires forall k :: 0 <= k < |es| ==> !Marks(es[k], i) && !Registers(es[k], i)
    ensures Run(w, es).svcs[i].stopping == (w.svcs[i].stopping && !Cleared(es, i))
    decreases |es|
  {
    hide Step, Legal, Marks, Registers, Clears;
    if es != [] {
      var c, e := es[..|es| - 1], es[|es| - 1];
      assert es == c + [e];
      StoppingIff(w, c, i);
      StepStopping(Run(w, c), e, i);
      ClearedMore(c, e, i);
    }
  }

  lemma RestartMarks(w: World, i: nat, c: Command)
    requires Inv(w) && Legal(w, Do(i, Cmd(c))) && (c.Stop? || c.Restart? || c.GoDown?)
    requires i < |w.svcs| && w.svcs[i].pid > 0
    ensures var s := Step(w, Do(i, Cmd(c))).svcs[i]; s.active && s.stopping && s.pid == w.svcs[i].pid
  {
    hide Handles, ProcLedger, FdLedger, SlotOk, Deaf;
  }

  /**
   `restart`, `stop` and `down` of a live service: when its exit is reaped, the slot is latched exactly when
   neither a scan nor a `start` or `up` command has come in between, or the service ran once, or the breaker has
   tripped. So a `restart` alone brings no new start.
   */
  lemma RestartLatchesIff(w: World, i: nat, c: Command, es: seq<Event>, e: Event)
    requires Inv(w) && Legal(w, Do(i, Cmd(c))) && (c.Stop? || c.Restart? || c.GoDown?)
    requires i < |w.svcs| && w.svcs[i].pid > 0
    requires LegalRun(Step(w, Do(i, Cmd(c))), es)
    requires forall k :: 0 <= k < |es| ==> !Marks(es[k], i) && !Registers(es[k], i)
    requires Legal(Run(Step(w, Do(i, Cmd(c))), es), e) && ExitOf(Run(Step(w, Do(i, Cmd(c))), es), e, i)
    ensures var u := Run(Step(w, Do(i, Cmd(c))), es);
            Step(u, e).svcs[i].restartAt == NEVER <==>
              || !Cleared(es, i) || u.svcs[i].once
              || (u.svcs[i].restarts >= 5 && Seconds(e.at) - u.svcs[i].startedAt <= 60)
  {
    hide Legal, Step, Inv, LegalRun, Run, ExitOf, Marks, Registers, Cleared;
    RestartMarks(w, i, c);
    StoppingIff(Step(w, Do(i, Cmd(c))), es, i);
    ExitLatchesIff(Run(Step(w, Do(i, Cmd(c))), es), e, i);
  }

  /** Slot `i` is being stopped, or it has been, and is not to be started again. */
  ghost predicate Halting(s: Service) {
    s.active ==> if s.pid > 0 then s.stopping else s.restartAt == NEVER
  }

  lemma HaltingCommand(s: Service, c: Command)
    requires Halting(s) && !c.Start? && !c.GoUp?
    ensures Halting(CommandAfter(s, c))
  {
    match c
    case Stop =>
    case Restart =>
    case GoDown =>
    case Once =>
    case Send(_) =>
  }

  lemma HaltingIo(s: Service, c: Channel, op: StreamOp)
    requires Halting(s)
    ensures Halting(IoAfter(s, c, op))
  {
  }

  lemma HaltingExit(s: Service, status: int, t: int)
    requires Halting(s) && s.active
    ensures s.pid > 0 ==> Halting(AfterExit(s, status, t))
    ensures Halting(AfterLoggerExit(s)) && Halting(s.(present := false))
  {
  }

  lemma HaltingAction(w: World, i: nat, a: Action)
    requires i < |w.svcs| && Allowed(w, i, a) && Halting(w.svcs[i])
    requires !Resumes(Do(i, a), i) && !a.Register? && !a.Finalize? && (a.ScanSeen? ==> w.svcs[i].pid <= 0)
    ensures Halting(SlotAfter(w.svcs[i], a)) && !a.Launch?
  {
    hide Handles, DepsSatisfied, LegalLaunch, Stranded, AllowedIo, AfterLaunch, CommandAfter, IoAfter;
    match a
    case Cmd(c) => HaltingCommand(w.svcs[i], c);
    case Io(c, op) => HaltingIo(w.svcs[i], c, op);
    case Terminate(_) =>
    case TerminateLogger =>
    case Launch(_, _, _) =>
    case Defer(_, _) =>
    case ScanSeen =>
    case Free =>
    case KillMain =>
    case KillLogger =>
  }

  lemma StepHalting(w: World, e: Event, i: nat)
    requires Legal(w, e) && i < |w.svcs| && Halting(w.svcs[i])
    requires !Resumes(e, i) && !Registers(e, i) && !(e.Do? && e.a.Finalize?) && (ScanSees(e, i) ==> w.svcs[i].pid <= 0)
    ensures Halting(Step(w, e).svcs[i]) && !Starts(e, i)
  {
    hide Handles, SlotAfter, Allowed, AfterExit, AfterLoggerExit, Sends, ChildrenAfter, ClockAfter, Halting;
    if e.Do? && e.i == i {
      HaltingAction(w, i, e.a);
    } else if e.Reap? && Target(w, e).Some? && Target(w, e).value.0 == i {
      HaltingExit(w.svcs[i], e.status, Seconds(e.at));
    } else {
      Untouched(w, e, i);
      UnlistedHalting(w.svcs[i]);
    }
  }

  lemma UnlistedHalting(s: Service)
    requires Halting(s)
    ensures Halting(s.(present := false))
  {
  }

  /** No scan finds slot `i` while its main process is there. */
  ghost predicate UnseenAlive(w: World, es: seq<Event>, i: nat)
    requires LegalRun(w, es) && i < |w.svcs|
    decreases |es|
  {
    es == [] ||
      (UnseenAlive(w, es[..|es| - 1], i)
       && (ScanSees(es[|es| - 1], i) ==> Run(w, es[..|es| - 1]).svcs[i].pid <= 0))
  }

  /**
   Over runs: a live service that has been told to stop or to restart is not started again, in any run, unless a
   `start` or `up` command comes, a new service is registered in its slot, or a scan finds it before its exit is
   reaped. Scans after that do not matter.
   */
  lemma {:induction false} HaltedNoStart(w: World, es: seq<Event>, i: nat)
    requires LegalRun(w, es) && i < |w.svcs| && Halting(w.svcs[i])
    requires Unattended(es, i) && NoFinalize(es) && UnseenAlive(w, es, i)
    ensures Halting(Run(w, es).svcs[i]) && NoStart(es, i)
    decreases |es|
  {
    hide Step, Legal, Halting;
    if es != [] {
      var c, e := es[..|es| - 1], es[|es| - 1];
      HaltedNoStart(w, c, i);
      StepHalting(Run(w, c), e, i);
    }
  }

  lemma RestartHalts(w: World, i: nat, c: Command, es: seq<Event>)
    requires Inv(w) && Legal(w, Do(i, Cmd(c))) && (c.Stop? || c.Restart? || c.GoDown?)
    requires i < |w.svcs| && w.svcs[i].pid > 0
    requires LegalRun(Step(w, Do(i, Cmd(c))), es) && Unattended(es, i) && NoFinalize(es)
    requires UnseenAlive(Step(w, Do(i, Cmd(c))), es, i)
    ensures NoStart(es, i)
  {
    hide Legal, Step, Inv, LegalRun, UnseenAlive, Unattended, NoFinalize;
    RestartMarks(w, i, c);
    HaltedNoStart(Step(w, Do(i, Cmd(c))), es, i);
  }
}
