/** What the lines of the control protocol do, from the text to the table and the signals that are sent. */
module Orders {
  import opened Types
  import opened KernelAnswers
  import opened Machine
  import opened Ledger
  import opened Propagation
  import opened Passes
  import opened Commands
  import opened Control

  /** The line `<word> <name>` has been answered with `reply` in the world `v`, where slot `k` bears the name. */
  ghost predicate Obeyed(v: World, word: Text, name: Text, tail: Text, k: nat, reply: Reply, steps: seq<Event>) {
    && Inv(v) && LegalRun(v, steps) && Nameable(name) && Blank(tail) && FindByName(v.svcs, name) == Some(k)
    && Answers(v.svcs, Understand(CommandLine(word, name, tail)), reply, steps)
  }

  /** SIGTERM to the group of the main process and to the logger, as far as they are there. */
  function Terms(s: Service): seq<Signal> {
    (if s.pid > 0 then [Signal(s.pid, 15, true)] else []) + (if s.logPid > 0 then [Signal(s.logPid, 15, false)] else [])
  }

  lemma Words()
    ensures Says("start", OpStart) && Says("stop", OpStop) && Says("restart", OpRestart)
    ensures Says("down", OpDown) && Says("up", OpUp) && Says("once", OpOnce)
  {
  }

  lemma OneStep(v: World, e: Event)
    requires LegalRun(v, [e])
    ensures Legal(v, e) && Run(v, [e]) == Step(v, e)
  {
    hide Legal, Step;
    assert [e][..0] == [];
  }

  lemma CommandStep(v: World, k: nat, c: Command)
    requires Legal(v, Do(k, Cmd(c)))
    ensures k < |v.svcs| && v.svcs[k].active
    ensures var u := Step(v, Do(k, Cmd(c)));
            && u.svcs == v.svcs[k := CommandAfter(v.svcs[k], c)] && u.sent == v.sent + ActionSends(v.svcs[k], Cmd(c))
            && u.ms == if c.GoUp? then c.at else v.ms
  {
    hide Handles, CommandAfter, ActionSends;
  }

  lemma CommandSignals(s: Service)
    ensures ActionSends(s, Cmd(Start)) == ActionSends(s, Cmd(Once)) == []
    ensures ActionSends(s, Cmd(Stop)) == ActionSends(s, Cmd(Restart)) == Terms(s)
    ensures ActionSends(s, Cmd(GoDown)) == if s.pid > 0 then Terms(s) else []
    ensures forall at :: ActionSends(s, Cmd(GoUp(at))) == []
    ensures forall sig :: ActionSends(s, Cmd(Send(sig))) == [Signal(s.pid, sig, true)]
  {
  }

  /** One command has been taken. */
  lemma Taken(v: World, word: Text, name: Text, tail: Text, k: nat, reply: Reply, steps: seq<Event>, c: Command)
    requires Obeyed(v, word, name, tail, k, reply, steps) && steps == [Do(k, Cmd(c))]
    ensures k < |v.svcs| && Legal(v, Do(k, Cmd(c))) && LegalRun(v, steps)
    ensures var u := Run(v, steps);
            && u.svcs == v.svcs[k := CommandAfter(v.svcs[k], c)] && u.sent == v.sent + ActionSends(v.svcs[k], Cmd(c))
            && u.ms == if c.GoUp? then c.at else v.ms
  {
    LegalSteps(v, word, name, tail, k, reply, steps);
    hide Obeyed, LegalRun, Run, Legal, Step;
    OneStep(v, Do(k, Cmd(c)));
    CommandStep(v, k, c);
  }

  lemma OperationObeyed(v: World, word: Text, op: Operation, name: Text, tail: Text, k: nat, reply: Reply,
                        steps: seq<Event>)
    requires Says(word, op) && Obeyed(v, word, name, tail, k, reply, steps)
    ensures reply == Done && Performs(v.svcs, op, k, steps)
  {
    hide Understand, CommandLine, Performs, Inv, LegalRun, Nameable, Blank, Says;
    OperationByWord(word, op, name, tail);
  }

  /** `start` asks for the service and lifts whatever kept it from being started. */
  lemma StartObeyed(v: World, name: Text, tail: Text, k: nat, reply: Reply, steps: seq<Event>)
    requires Obeyed(v, "start", name, tail, k, reply, steps)
    ensures var s, u := v.svcs[k], Run(v, steps);
            && reply == Done && u.sent == v.sent
            && u.svcs == v.svcs[k := s.(manualStart := true, restartAt := 0, stopping := false)]
  {
    hide Obeyed, LegalRun, Run, Legal, Step, CommandAfter, ActionSends, Terms, Says;
    assert Says("start", OpStart) by { Words(); }
    OperationObeyed(v, "start", OpStart, name, tail, k, reply, steps);
    Taken(v, "start", name, tail, k, reply, steps, Start);
    CommandSlots(v.svcs[k]);
    CommandSignals(v.svcs[k]);
    assert v.sent + [] == v.sent;
  }

  lemma LegalSteps(v: World, word: Text, name: Text, tail: Text, k: nat, reply: Reply, steps: seq<Event>)
    requires Obeyed(v, word, name, tail, k, reply, steps)
    ensures LegalRun(v, steps) && k < |v.svcs| && v.svcs[k].active && Inv(v)
  {
  }

  /** `restart` stops the service and its logger, and remembers that the service has been asked for. */
  lemma RestartObeyed(v: World, name: Text, tail: Text, k: nat, reply: Reply, steps: seq<Event>)
    requires Obeyed(v, "restart", name, tail, k, reply, steps)
    ensures var s, u := v.svcs[k], Run(v, steps);
            && reply == Done && u.sent == v.sent + Terms(s)
            && u.svcs == v.svcs[k := s.(stopping := true, state := Stopping, manualStart := true,
                                        logStopping := s.logStopping || s.logPid > 0)]
  {
    hide Obeyed, LegalRun, Run, Legal, Step, CommandAfter, ActionSends, Terms, Says;
    assert Says("restart", OpRestart) by { Words(); }
    OperationObeyed(v, "restart", OpRestart, name, tail, k, reply, steps);
    Taken(v, "restart", name, tail, k, reply, steps, Restart);
    CommandSlots(v.svcs[k]);
    CommandSignals(v.svcs[k]);
    assert v.sent + [] == v.sent;
  }

  /** `down` keeps the service from starting by itself; a live one is stopped together with its logger. */
  lemma DownObeyed(v: World, name: Text, tail: Text, k: nat, reply: Reply, steps: seq<Event>)
    requires Obeyed(v, "down", name, tail, k, reply, steps)
    ensures var s, u := v.svcs[k], Run(v, steps);
            && reply == Done && u.sent == v.sent + (if s.pid > 0 then Terms(s) else [])
            && u.svcs == v.svcs[k := if s.pid <= 0 then s.(autoStart := false)
                                     else s.(autoStart := false, stopping := true, state := Stopping,
                                             logStopping := s.logStopping || s.logPid > 0)]
  {
    hide Obeyed, LegalRun, Run, Legal, Step, CommandAfter, ActionSends, Terms, Says;
    assert Says("down", OpDown) by { Words(); }
    OperationObeyed(v, "down", OpDown, name, tail, k, reply, steps);
    Taken(v, "down", name, tail, k, reply, steps, GoDown);
    DownSlot(v.svcs[k]);
    CommandSignals(v.svcs[k]);
    assert v.sent + [] == v.sent;
  }

  /** `up` lets the service start by itself from now on. */
  lemma UpObeyed(v: World, name: Text, tail: Text, k: nat, reply: Reply, steps: seq<Event>)
    requires Obeyed(v, "up", name, tail, k, reply, steps)
    ensures var s, u := v.svcs[k], Run(v, steps);
            && reply == Done && u.sent == v.sent && v.ms <= u.ms
            && u.svcs == v.svcs[k := s.(autoStart := true, restartAt := u.ms / 1000, stopping := false)]
  {
    hide Obeyed, LegalRun, Run, Legal, Step, CommandAfter, ActionSends, Terms, Says;
    assert Says("up", OpUp) by { Words(); }
    OperationObeyed(v, "up", OpUp, name, tail, k, reply, steps);
    var at :| steps == [Do(k, Cmd(GoUp(at)))];
    Taken(v, "up", name, tail, k, reply, steps, GoUp(at));
    CommandSlots(v.svcs[k]);
    CommandSignals(v.svcs[k]);
    UpIsLater(v, k, at);
    assert v.sent + [] == v.sent;
  }

  lemma UpIsLater(v: World, k: nat, at: int)
    requires Legal(v, Do(k, Cmd(GoUp(at))))
    ensures v.ms <= at
  {
  }

  /** `once` sets the flag. */
  lemma OnceObeyed(v: World, name: Text, tail: Text, k: nat, reply: Reply, steps: seq<Event>)
    requires Obeyed(v, "once", name, tail, k, reply, steps)
    ensures var s, u := v.svcs[k], Run(v, steps);
            reply == Done && u.sent == v.sent && u.svcs == v.svcs[k := s.(once := true)]
  {
    hide Obeyed, LegalRun, Run, Legal, Step, CommandAfter, ActionSends, Terms, Says;
    assert Says("once", OpOnce) by { Words(); }
    OperationObeyed(v, "once", OpOnce, name, tail, k, reply, steps);
    Taken(v, "once", name, tail, k, reply, steps, Once);
    CommandSlots(v.svcs[k]);
    CommandSignals(v.svcs[k]);
    assert v.sent + [] == v.sent;
  }

  /** `stop` propagates first; then the service and its logger are told to stop, whether or not they were already. */
  lemma StopObeyed(v: World, name: Text, tail: Text, k: nat, reply: Reply, steps: seq<Event>)
    requires Obeyed(v, "stop", name, tail, k, reply, steps)
    ensures var s, u := v.svcs[k], Run(v, steps);
            && reply == Done && u.svcs[k].stopping && u.svcs[k].state == Stopping
            && exists first :: u.sent == v.sent + first + Terms(s)
  {
    hide Obeyed, LegalRun, Run, Legal, Step, AllDoomed, Terms, Says, CommandAfter, ActionSends;
    assert Says("stop", OpStop) by { Words(); }
    OperationObeyed(v, "stop", OpStop, name, tail, k, reply, steps);
    LegalSteps(v, "stop", name, tail, k, reply, steps);
    var victims: seq<nat> :| AllDoomed(v.svcs, victims)
                             && steps == Terminations(victims, LostDependency) + [Do(k, Cmd(Stop))];
    var firsts := Terminations(victims, LostDependency);
    RunSplit(v, firsts, [Do(k, Cmd(Stop))]);
    var m := Run(v, firsts);
    StopsKeepPids(v, victims, k);
    OneStep(m, Do(k, Cmd(Stop)));
    CommandStep(m, k, Stop);
    CommandSlots(m.svcs[k]);
    CommandSignals(m.svcs[k]);
    SameTerms(v.svcs[k], m.svcs[k]);
  }

  lemma SameTerms(s: Service, t: Service)
    requires t.pid == s.pid && t.logPid == s.logPid
    ensures Terms(t) == Terms(s)
  {
  }

  lemma {:induction false} StopsKeepPids(v: World, xs: seq<nat>, k: nat)
    requires LegalRun(v, Terminations(xs, LostDependency)) && k < |v.svcs|
    ensures var u := Run(v, Terminations(xs, LostDependency));
            && u.svcs[k].pid == v.svcs[k].pid && u.svcs[k].logPid == v.svcs[k].logPid
            && exists more :: u.sent == v.sent + more
  {
    hide Legal, Step;
    if xs == [] {
      assert v.sent == v.sent + [];
    } else {
      var ys, y := xs[..|xs| - 1], xs[|xs| - 1];
      var es := Terminations(xs, LostDependency);
      assert es[..|es| - 1] == Terminations(ys, LostDependency);
      StopsKeepPids(v, ys, k);
      var u := Run(v, es[..|es| - 1]);
      var more :| u.sent == v.sent + more;
      StopKeepsPids(u, y, k);
      assert v.sent + more + Sends(u, es[|es| - 1]) == v.sent + (more + Sends(u, es[|es| - 1]));
    }
  }

  lemma StopKeepsPids(u: World, i: nat, k: nat)
    requires Legal(u, Do(i, Terminate(LostDependency))) && k < |u.svcs|
    ensures var t := Step(u, Do(i, Terminate(LostDependency)));
            && t.svcs[k].pid == u.svcs[k].pid && t.svcs[k].logPid == u.svcs[k].logPid
            && t.sent == u.sent + Sends(u, Do(i, Terminate(LostDependency)))
  {
    hide Handles, Allowed, Sends;
  }

  /** A signal goes to the group of the main process, whether it is asked for by name or by number. */
  lemma SignalObeyed(v: World, cmd: Text, n: nat, name: Text, tail: Text, k: nat, reply: Reply, steps: seq<Event>)
    requires Names(cmd, n) && Obeyed(v, cmd, name, tail, k, reply, steps)
    ensures var s, u := v.svcs[k], Run(v, steps);
            && u.svcs == v.svcs
            && if s.pid > 0 then reply == Done && u.sent == v.sent + [Signal(s.pid, n, true)]
               else reply == NotRunning && u == v
  {
    hide Obeyed, LegalRun, Run, Legal, Step, CommandAfter, ActionSends, Names;
    SignalObeyedAs(v, cmd, n, name, tail, k, reply, steps);
    LegalSteps(v, cmd, name, tail, k, reply, steps);
    if v.svcs[k].pid > 0 {
      Taken(v, cmd, name, tail, k, reply, steps, Send(n));
      SendTaken(v.svcs, k, n);
    } else {
      EmptyRun(v);
    }
  }

  lemma SendTaken(svcs: seq<Service>, k: nat, n: nat)
    requires k < |svcs|
    ensures svcs[k := CommandAfter(svcs[k], Send(n))] == svcs
    ensures ActionSends(svcs[k], Cmd(Send(n))) == [Signal(svcs[k].pid, n, true)]
  {
    CommandSlots(svcs[k]);
    hide CommandAfter;
  }

  lemma SignalObeyedAs(v: World, cmd: Text, n: nat, name: Text, tail: Text, k: nat, reply: Reply, steps: seq<Event>)
    requires Names(cmd, n) && Obeyed(v, cmd, name, tail, k, reply, steps)
    ensures if v.svcs[k].pid > 0 then reply == Done && steps == [Do(k, Cmd(Send(n)))]
            else reply == NotRunning && steps == []
  {
    hide Understand, CommandLine, Performs, Inv, LegalRun, Nameable, Blank, Names;
    SignalByName(cmd, n, name, tail);
  }

  /** Changing what a slot waits for leaves names, dependencies and who is running alone. */
  lemma SameSupport(svcs: seq<Service>, k: nat, s: Service)
    requires k < |svcs| && DepsSatisfied(svcs[k], svcs)
    requires s.active == svcs[k].active && s.name == svcs[k].name && s.deps == svcs[k].deps && s.state == svcs[k].state
    ensures DepsSatisfied(s, svcs[k := s])
  {
    UpStays(svcs, svcs[k := s], svcs[k]);
  }

  /** The next pass starts a service that is ready to start, if its dependencies run and the fork succeeds. */
  lemma WantedStarts(u: World, t: int, pass: seq<Event>, k: nat)
    requires Inv(u) && IsPass(u, t, pass) && Faultless(pass)
    requires k < |u.svcs| && ReadyToStart(u.svcs[k], t) && DepsSatisfied(u.svcs[k], u.svcs)
    ensures LegalRun(u, pass) && Run(u, pass).svcs[k].state == Running
  {
    hide Inv, DepsSatisfied, LegalRun, Run;
    assert Due(u.svcs[k], t);
    PassStarts(u, t, |u.svcs|, pass, k);
  }

  /** `start` is followed by a start, whatever markers the service has and however long it was to wait. */
  lemma StartStarts(v: World, name: Text, tail: Text, k: nat, reply: Reply, steps: seq<Event>, t: nat, pass: seq<Event>)
    requires Obeyed(v, "start", name, tail, k, reply, steps)
    requires v.svcs[k].present && v.svcs[k].pid <= 0 && DepsSatisfied(v.svcs[k], v.svcs)
    requires LegalRun(v, steps) && IsPass(Run(v, steps), t, pass) && Faultless(pass)
    ensures LegalRun(Run(v, steps), pass) && Run(Run(v, steps), pass).svcs[k].state == Running
  {
    hide Obeyed, Inv, DepsSatisfied, LegalRun, Run, IsPass, Faultless;
    LegalSteps(v, "start", name, tail, k, reply, steps);
    StartObeyed(v, name, tail, k, reply, steps);
    RunKeeps(v, steps);
    SameSupport(v.svcs, k, v.svcs[k].(manualStart := true, restartAt := 0, stopping := false));
    WantedStarts(Run(v, steps), t, pass, k);
  }

  /** `up` is followed by a start at the same time or later, unless the service runs just once. */
  lemma UpStarts(v: World, name: Text, tail: Text, k: nat, reply: Reply, steps: seq<Event>, t: int, pass: seq<Event>)
    requires Obeyed(v, "up", name, tail, k, reply, steps)
    requires v.svcs[k].present && v.svcs[k].pid <= 0 && !v.svcs[k].once && DepsSatisfied(v.svcs[k], v.svcs)
    requires LegalRun(v, steps) && Run(v, steps).ms / 1000 <= t
    requires IsPass(Run(v, steps), t, pass) && Faultless(pass)
    ensures LegalRun(Run(v, steps), pass) && Run(Run(v, steps), pass).svcs[k].state == Running
  {
    hide Obeyed, Inv, DepsSatisfied, LegalRun, Run, IsPass, Faultless;
    LegalSteps(v, "up", name, tail, k, reply, steps);
    UpObeyed(v, name, tail, k, reply, steps);
    RunKeeps(v, steps);
    SameSupport(v.svcs, k, v.svcs[k].(autoStart := true, restartAt := Run(v, steps).ms / 1000, stopping := false));
    WantedStarts(Run(v, steps), t, pass, k);
  }

  /** No service bears the name: whatever is asked for, nothing happens. */
  lemma NobodyObeys(svcs: seq<Service>, word: Text, n: nat, name: Text, tail: Text, reply: Reply, steps: seq<Event>)
    requires Nameable(name) && Blank(tail) && FindByName(svcs, name) == None
    requires word == "status" || word == "check" || Names(word, n) || exists op :: Says(word, op)
    requires Answers(svcs, Understand(CommandLine(word, name, tail)), reply, steps)
    ensures reply == NotFound && steps == []
  {
    hide Understand, CommandLine, Performs, Nameable, Blank, Says, Names, AllDoomed;
    if op :| Says(word, op) {
      OperationByWord(word, op, name, tail);
    } else if Names(word, n) {
      SignalByName(word, n, name, tail);
    } else {
      Inquiry(word, name, tail);
    }
  }

  lemma Inquiry(word: Text, name: Text, tail: Text)
    requires (word == "status" || word == "check") && Nameable(name) && Blank(tail)
    ensures Understand(CommandLine(word, name, tail)) == if word == "status" then Status(name) else Check(name)
    ensures Understand(word + tail) == Usage
  {
    hide UnderstandWords, Nameable, Wordlike, Blank;
    OtherWords(name);
    OtherWords([]);
    WordUnderstood(word, name, tail);
    assert name != [] by { NameableNotEmpty(name); }
  }

  lemma NameableNotEmpty(name: Text)
    requires Nameable(name)
    ensures name != []
  {
  }

  /** Questions are answered and nothing is done. */
  lemma Shows(svcs: seq<Service>, word: Text, name: Text, tail: Text, reply: Reply, steps: seq<Event>)
    requires Nameable(name) && Blank(tail) && (word == "list" || word == "stat" || word == "status" || word == "reload")
    requires word == "status" ==> FindByName(svcs, name).Some?
    requires var line := if word == "status" then CommandLine(word, name, tail) else word + tail;
             Answers(svcs, Understand(line), reply, steps)
    ensures steps == [] && reply == if word == "reload" then Scheduled else Shown
  {
    hide UnderstandWords, Performs, Nameable, Wordlike, Blank, AllDoomed, CommandLine, Understand;
    if word == "status" {
      Inquiry(word, name, tail);
    } else {
      NoArgumentLine(word, tail) by { OtherWords([]); }
      OtherWords([]);
    }
  }

  /** How a check script that has ended is reported. */
  function StatusReply(status: int): Reply {
    if status % 128 == 0 then Checked(status / 256 % 256)
    else if status % 128 == 127 then CheckStopped
    else CheckKilled
  }

  predicate RepliesTo(asked: seq<Answer>, reply: Reply) {
    && (reply == NoScript <==> asked == [Executable(false)])
    && (reply == ForkFailed <==> |asked| == 2)
    && (|asked| == 3 ==> asked[2].Ended? && reply == StatusReply(asked[2].status))
  }

  /** The reply to `check` says how the check script ended, if there is one and it could be forked. */
  lemma CheckObeyed(svcs: seq<Service>, name: Text, tail: Text, reply: Reply, steps: seq<Event>)
    requires Nameable(name) && Blank(tail) && FindByName(svcs, name).Some?
    requires Answers(svcs, Understand(CommandLine("check", name, tail)), reply, steps)
    ensures |steps| == 1 && steps[0].Script? && RepliesTo(steps[0].asked, reply)
  {
    hide Performs, Nameable, Blank, AllDoomed, CommandLine, Understand, CheckReply, RepliesTo;
    Inquiry("check", name, tail);
    var asked :| steps == [Script(asked)] && CheckReply(asked, reply);
    CheckReplies(asked, reply);
  }

  lemma CheckReplies(asked: seq<Answer>, reply: Reply)
    requires CheckReply(asked, reply)
    ensures RepliesTo(asked, reply)
  {
  }
}
