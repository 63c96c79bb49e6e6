/** What the commands of the control socket do to the service table. */
module Control {
  import opened Types
  import opened KernelAnswers
  import opened Machine
  import opened Ledger
  import opened Propagation
  import opened Commands
  import opened Kernels
  import opened Logs
  import opened Drains
  import opened Supervision

  datatype Reply =
    | Done
    | Shown
    | Scheduled
    | UsageError
    | UnknownCommand
    | InvalidSignal
    | NotFound
    | NotRunning
    | NoScript
    | ForkFailed
    | Checked(code: int)
    | CheckStopped
    | CheckKilled

  /** The steps a command takes, from a table `svcs` in which slot `k` bears the name it gives. */
  ghost predicate Performs(svcs: seq<Service>, op: Operation, k: nat, steps: seq<Event>) {
    match op
    case OpStart => steps == [Do(k, Cmd(Start))]
    case OpStop => exists victims: seq<nat> :: AllDoomed(svcs, victims)
                                               && steps == Terminations(victims, LostDependency) + [Do(k, Cmd(Stop))]
    case OpRestart => steps == [Do(k, Cmd(Restart))]
    case OpDown => steps == [Do(k, Cmd(GoDown))]
    case OpUp => exists at :: steps == [Do(k, Cmd(GoUp(at)))]
    case OpOnce => steps == [Do(k, Cmd(Once))]
  }

  /** What the kernel's answers about the check script make of the reply. */
  predicate CheckReply(asked: seq<Answer>, reply: Reply) {
    ScriptAnswers(asked) &&
    if |asked| == 1 then reply == NoScript
    else if |asked| == 2 then reply == ForkFailed
    else
      var status := asked[2].status;
      if status % 128 == 0 then reply == Checked(status / 256 % 256)
      else if status % 128 == 127 then reply == CheckStopped
      else reply == CheckKilled
  }

  /** The reply to a request and the steps it leads to. Only operations, signals and check scripts take any step. */
  ghost predicate Answers(svcs: seq<Service>, req: Request, reply: Reply, steps: seq<Event>) {
    match req
    case Listing => reply == Shown && steps == []
    case Reload => reply == Scheduled && steps == []
    case Usage => reply == UsageError && steps == []
    case BadSignal => reply == InvalidSignal && steps == []
    case Unknown => reply == UnknownCommand && steps == []
    case Status(name) => reply == (if FindByName(svcs, name).Some? then Shown else NotFound) && steps == []
    case Check(name) =>
      if FindByName(svcs, name).None? then reply == NotFound && steps == []
      else exists asked :: steps == [Script(asked)] && CheckReply(asked, reply)
    case SendTo(name, sig) =>
      var k := FindByName(svcs, name);
      if k.None? then reply == NotFound && steps == []
      else if svcs[k.value].pid <= 0 then reply == NotRunning && steps == []
      else reply == Done && steps == [Do(k.value, Cmd(Send(sig)))]
    case Operate(op, name) =>
      var k := FindByName(svcs, name);
      if k.None? then reply == NotFound && steps == []
      else reply == Done && Performs(svcs, op, k.value, steps)
  }

  // ---------------------------------------------------------------- one slot

  lemma CommandSlots(s: Service)
    ensures CommandAfter(s, Start) == s.(manualStart := true, restartAt := 0, stopping := false)
    ensures CommandAfter(s, Stop)
         == s.(stopping := true, state := Stopping, logStopping := s.logStopping || s.logPid > 0)
    ensures CommandAfter(s, Restart)
         == s.(stopping := true, state := Stopping, logStopping := s.logStopping || s.logPid > 0, manualStart := true)
    ensures CommandAfter(s, Once) == s.(once := true)
    ensures forall sig :: CommandAfter(s, Send(sig)) == s
    ensures forall at :: CommandAfter(s, GoUp(at)) == s.(autoStart := true, restartAt := Seconds(at), stopping := false)
  {
  }

  lemma DownSlot(s: Service)
    ensures CommandAfter(s, GoDown) ==
            if s.pid > 0 then s.(autoStart := false, stopping := true, state := Stopping,
                                 logStopping := s.logStopping || s.logPid > 0)
            else s.(autoStart := false)
  {
    match GoDown
    case GoDown =>
    case _ =>
  }

  /** SIGTERM to the main process and to the logger of slot `i`, as far as they are there. */
  method SignalBoth(sup: Supervisor, i: nat)
    requires i < sup.services.Length && sup.services[i].active && Inv(sup.Snapshot())
    modifies sup.kernel`sent
    ensures sup.kernel.sent == old(sup.kernel.sent) + TermMain(sup.services[i]) + TermLogger(sup.services[i])
  {
    hide SlotOk, FdLedger, ProcLedger;
    var s := sup.services[i];
    ghost var v := sup.Snapshot();
    if s.pid > 0 {
      HeldMain(v, i);
      sup.kernel.Kill(s.pid, SIGTERM, true);
    }
    if s.logPid > 0 {
      HeldLogger(v, i);
      sup.kernel.Kill(s.logPid, SIGTERM, false);
    }
  }

  method MarkStart(sup: Supervisor, i: nat, ghost w: World, ghost h: seq<Event>, ghost es: seq<Event>)
    requires sup.Did(w, h, es) && i < sup.services.Length && sup.services[i].active
    modifies sup.services, sup`history
    ensures sup.Did(w, h, es + [Do(i, Cmd(Start))])
  {
    hide Run, LegalRun, Logged, Taken, Refused, Asked, SlotOk, ProcLedger, Handles, CommandAfter;
    ghost var v := sup.Snapshot();
    CommandSlots(sup.services[i]);
    CommandHolds(sup.services[i], Start);
    sup.services[i] := sup.services[i].(manualStart := true, restartAt := 0, stopping := false);
    SameFds(v, i, sup.services[i]);
    sup.Record(w, h, es, v, Do(i, Cmd(Start)));
  }

  method MarkStop(sup: Supervisor, i: nat, ghost w: World, ghost h: seq<Event>, ghost es: seq<Event>)
    requires sup.Did(w, h, es) && i < sup.services.Length && sup.services[i].active
    modifies sup.services, sup.kernel`sent, sup`history
    ensures sup.Did(w, h, es + [Do(i, Cmd(Stop))])
  {
    hide Run, LegalRun, Logged, Taken, Refused, Asked, SlotOk, ProcLedger, Handles, CommandAfter, TermMain, TermLogger;
    ghost var v := sup.Snapshot();
    var s := sup.services[i];
    CommandSlots(s);
    CommandHolds(s, Stop);
    SignalBoth(sup, i);
    sup.services[i] := s.(stopping := true, state := Stopping, logStopping := s.logStopping || s.logPid > 0);
    SameFds(v, i, sup.services[i]);
    sup.Record(w, h, es, v, Do(i, Cmd(Stop)));
  }

  method MarkRestart(sup: Supervisor, i: nat, ghost w: World, ghost h: seq<Event>, ghost es: seq<Event>)
    requires sup.Did(w, h, es) && i < sup.services.Length && sup.services[i].active
    modifies sup.services, sup.kernel`sent, sup`history
    ensures sup.Did(w, h, es + [Do(i, Cmd(Restart))])
  {
    hide Run, LegalRun, Logged, Taken, Refused, Asked, SlotOk, ProcLedger, Handles, CommandAfter, TermMain, TermLogger;
    ghost var v := sup.Snapshot();
    var s := sup.services[i];
    CommandSlots(s);
    CommandHolds(s, Restart);
    SignalBoth(sup, i);
    sup.services[i] := s.(stopping := true, state := Stopping, logStopping := s.logStopping || s.logPid > 0,
                          manualStart := true);
    SameFds(v, i, sup.services[i]);
    sup.Record(w, h, es, v, Do(i, Cmd(Restart)));
  }

  method MarkDown(sup: Supervisor, i: nat, ghost w: World, ghost h: seq<Event>, ghost es: seq<Event>)
    requires sup.Did(w, h, es) && i < sup.services.Length && sup.services[i].active
    modifies sup.services, sup.kernel`sent, sup`history
    ensures sup.Did(w, h, es + [Do(i, Cmd(GoDown))])
  {
    hide Run, LegalRun, Logged, Taken, Refused, Asked, SlotOk, ProcLedger, Handles, CommandAfter, TermMain, TermLogger;
    ghost var v := sup.Snapshot();
    var s := sup.services[i];
    DownSlot(s);
    CommandHolds(s, GoDown);
    if s.pid > 0 {
      SignalBoth(sup, i);
      sup.services[i] := s.(autoStart := false, stopping := true, state := Stopping,
                            logStopping := s.logStopping || s.logPid > 0);
    } else {
      sup.services[i] := s.(autoStart := false);
    }
    SameFds(v, i, sup.services[i]);
    sup.Record(w, h, es, v, Do(i, Cmd(GoDown)));
  }

  method MarkUp(sup: Supervisor, i: nat, ghost w: World, ghost h: seq<Event>, ghost es: seq<Event>)
    returns (ghost at: int)
    requires sup.Did(w, h, es) && i < sup.services.Length && sup.services[i].active
    modifies sup.services, sup.kernel`ms, sup`history
    ensures sup.Did(w, h, es + [Do(i, Cmd(GoUp(at)))]) && Ticks(old(sup.kernel.ms), sup.kernel.ms)
  {
    hide Run, LegalRun, Logged, Taken, Refused, Asked, SlotOk, ProcLedger, Handles, CommandAfter;
    ghost var v := sup.Snapshot();
    var now := sup.kernel.MonoNow();
    at := sup.kernel.ms;
    CommandSlots(sup.services[i]);
    CommandHolds(sup.services[i], GoUp(at));
    sup.services[i] := sup.services[i].(autoStart := true, restartAt := now, stopping := false);
    SameFds(v, i, sup.services[i]);
    sup.Record(w, h, es, v, Do(i, Cmd(GoUp(at))));
  }

  method MarkOnce(sup: Supervisor, i: nat, ghost w: World, ghost h: seq<Event>, ghost es: seq<Event>)
    requires sup.Did(w, h, es) && i < sup.services.Length && sup.services[i].active
    modifies sup.services, sup`history
    ensures sup.Did(w, h, es + [Do(i, Cmd(Once))])
  {
    hide Run, LegalRun, Logged, Taken, Refused, Asked, SlotOk, ProcLedger, Handles, CommandAfter;
    ghost var v := sup.Snapshot();
    CommandSlots(sup.services[i]);
    CommandHolds(sup.services[i], Once);
    sup.services[i] := sup.services[i].(once := true);
    SameFds(v, i, sup.services[i]);
    sup.Record(w, h, es, v, Do(i, Cmd(Once)));
  }

  method SendSignal(sup: Supervisor, i: nat, sig: int, ghost w: World, ghost h: seq<Event>, ghost es: seq<Event>)
    requires sup.Did(w, h, es) && i < sup.services.Length && sup.services[i].active && sup.services[i].pid > 0
    modifies sup.kernel`sent, sup`history
    ensures sup.Did(w, h, es + [Do(i, Cmd(Send(sig)))])
  {
    hide Run, LegalRun, Logged, Taken, Refused, Asked, SlotOk, ProcLedger, Handles, CommandAfter;
    ghost var v := sup.Snapshot();
    HeldMain(v, i);
    sup.kernel.Kill(sup.services[i].pid, sig, true);
    CommandSlots(sup.services[i]);
    SameFds(v, i, sup.services[i]);
    sup.Record(w, h, es, v, Do(i, Cmd(Send(sig))));
  }

  // ---------------------------------------------------------------- commands

  method Operated(sup: Supervisor, op: Operation, k: nat, ghost w: World, ghost h: seq<Event>, ghost es: seq<Event>)
    returns (ghost steps: seq<Event>)
    requires sup.Did(w, h, es) && k < sup.services.Length && sup.services[k].active
    modifies sup.services, sup.kernel`sent, sup.kernel`ms, sup`history
    ensures sup.Did(w, h, es + steps) && Performs(old(sup.services[..]), op, k, steps)
    ensures Ticks(old(sup.kernel.ms), sup.kernel.ms)
  {
    hide Supervisor.Did, AllDoomed, Closed;
    match op
    case OpStart =>
      MarkStart(sup, k, w, h, es);
      steps := [Do(k, Cmd(Start))];
    case OpStop =>
      ghost var victims, passes := sup.StopTransitiveDeps(w, h, es);
      MarkStop(sup, k, w, h, es + Terminations(victims, LostDependency));
      steps := Terminations(victims, LostDependency) + [Do(k, Cmd(Stop))];
      assert es + Terminations(victims, LostDependency) + [Do(k, Cmd(Stop))] == es + steps;
    case OpRestart =>
      MarkRestart(sup, k, w, h, es);
      steps := [Do(k, Cmd(Restart))];
    case OpDown =>
      MarkDown(sup, k, w, h, es);
      steps := [Do(k, Cmd(GoDown))];
    case OpUp =>
      ghost var at := MarkUp(sup, k, w, h, es);
      steps := [Do(k, Cmd(GoUp(at)))];
    case OpOnce =>
      MarkOnce(sup, k, w, h, es);
      steps := [Do(k, Cmd(Once))];
  }

  /** The check script runs to its end before anything else is done; it is held in no slot. */
  method RunCheck(sup: Supervisor, ghost w: World, ghost h: seq<Event>, ghost es: seq<Event>)
    returns (reply: Reply, ghost asked: seq<Answer>)
    requires sup.Did(w, h, es)
    modifies sup.kernel`children, sup.kernel`answers, sup`history
    ensures sup.Did(w, h, es + [Script(asked)]) && CheckReply(asked, reply)
  {
    hide Run, LegalRun, Logged, Taken, Refused, Asked, Inv, Step;
    ghost var v, was := sup.Snapshot(), sup.kernel.children;
    var executable := sup.kernel.Access();
    asked := [Executable(executable)];
    reply := NoScript;
    if executable {
      var pid := sup.kernel.Fork();
      asked := asked + [Forked(pid)];
      reply := ForkFailed;
      if pid > 0 {
        var status := sup.kernel.WaitFor(pid);
        asked := asked + [Ended(status)];
        reply := if status % 128 == 0 then Checked(status / 256 % 256)
                 else if status % 128 == 127 then CheckStopped else CheckKilled;
        assert sup.kernel.children == was;
      }
    }
    AsideStep(v, Script(asked));
    sup.Record(w, h, es, v, Script(asked));
  }

  /** `handle_control_command`: understands the line, then answers it. */
  method HandleControlCommand(sup: Supervisor, line: Text, ghost w: World, ghost h: seq<Event>, ghost es: seq<Event>)
    returns (reply: Reply, ghost steps: seq<Event>)
    requires sup.Did(w, h, es)
    modifies sup.services, sup.kernel`children, sup.kernel`answers, sup.kernel`sent, sup.kernel`ms, sup`history
    ensures sup.Did(w, h, es + steps) && Answers(old(sup.services[..]), Understand(line), reply, steps)
    ensures Ticks(old(sup.kernel.ms), sup.kernel.ms)
  {
    hide Supervisor.Did, Understand, Performs;
    steps := [];
    assert es + [] == es;
    var req := ReadRequest(line);
    match req
    case Listing => reply := Shown;
    case Reload => reply := Scheduled;
    case Usage => reply := UsageError;
    case BadSignal => reply := InvalidSignal;
    case Unknown => reply := UnknownCommand;
    case Status(name) =>
      var k := sup.FindServiceByName(name);
      reply := if k.None? then NotFound else Shown;
    case Check(name) =>
      var k := sup.FindServiceByName(name);
      if k.None? {
        reply := NotFound;
      } else {
        ghost var asked;
        reply, asked := RunCheck(sup, w, h, es);
        steps := [Script(asked)];
      }
    case SendTo(name, sig) =>
      var k := sup.FindServiceByName(name);
      if k.None? {
        reply := NotFound;
      } else if sup.services[k.value].pid <= 0 {
        reply := NotRunning;
      } else {
        SendSignal(sup, k.value, sig, w, h, es);
        reply, steps := Done, [Do(k.value, Cmd(Send(sig)))];
      }
    case Operate(op, name) =>
      var k := sup.FindServiceByName(name);
      if k.None? {
        reply := NotFound;
      } else {
        reply := Done;
        steps := Operated(sup, op, k.value, w, h, es);
      }
  }
}
