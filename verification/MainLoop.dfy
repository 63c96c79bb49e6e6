/** The main loop of the program, from the zeroed table to the end of the shutdown. */
module MainLoop {
  import opened Types
  import opened Machine
  import opened Propagation
  import Ledger
  import Passes
  import opened Reaping
  import opened Kernels
  import opened FileSystem
  import opened LogFiles
  import opened Logs
  import opened Registry
  import opened Scan
  import opened Drains
  import opened Draining
  import opened Control
  import opened Commands
  import opened Shutdown
  import opened Supervision

  /** What `poll` reports: a command line on the control socket, or output on a pipe. */
  datatype Ready = Line(line: Text) | Output(i: nat, c: Channel)

  /** What one turn of the loop meets: whether a reload was asked for, the root directory, and what is ready. */
  datatype Turn = Turn(reload: bool, readable: bool, entries: seq<Entry>, ready: seq<Ready>)

  // ---------------------------------------------------------------- what is ready

  /** A command line is answered by `reply`; output of an active slot is drained, and nobody is answered. */
  ghost predicate ServedOne(u: World, r: Ready, part: seq<Event>, reply: Option<Reply>) {
    match r
    case Line(line) => reply.Some? && Answers(u.svcs, Understand(line), reply.value, part)
    case Output(i, c) =>
      reply.None? && if i < |u.svcs| && u.svcs[i].active then Drained(u, i, c, part) else part == []
  }

  /** From the world `v` on, the first descriptors that are ready have been served one after the other. */
  ghost predicate Served(v: World, ready: seq<Ready>, parts: seq<seq<Event>>, replies: seq<Option<Reply>>) {
    |parts| == |replies| <= |ready| &&
    forall k :: 0 <= k < |parts| ==>
      LegalRun(v, Joined(parts[..k])) && ServedOne(Run(v, Joined(parts[..k])), ready[k], parts[k], replies[k])
  }

  lemma ServedMore(v: World, ready: seq<Ready>, parts: seq<seq<Event>>, replies: seq<Option<Reply>>,
                   part: seq<Event>, reply: Option<Reply>)
    requires Served(v, ready, parts, replies) && |parts| < |ready| && LegalRun(v, Joined(parts))
    requires ServedOne(Run(v, Joined(parts)), ready[|parts|], part, reply)
    ensures Served(v, ready, parts + [part], replies + [reply]) && Joined(parts + [part]) == Joined(parts) + part
  {
    hide LegalRun, Run, ServedOne, Joined;
    JoinedMore(parts, part);
    var more, answered := parts + [part], replies + [reply];
    assert more[..|parts|] == parts;
    forall k | 0 <= k < |more|
      ensures LegalRun(v, Joined(more[..k])) && ServedOne(Run(v, Joined(more[..k])), ready[k], more[k], answered[k])
    {
      if k < |parts| {
        assert more[..k] == parts[..k];
      }
    }
  }

  lemma ServedFewer(v: World, ready: seq<Ready>, parts: seq<seq<Event>>, replies: seq<Option<Reply>>)
    requires Served(v, ready, parts, replies) && parts != []
    ensures Served(v, ready, parts[..|parts| - 1], replies[..|parts| - 1])
  {
    hide LegalRun, Run, ServedOne, Joined;
    var fewer, answered := parts[..|parts| - 1], replies[..|parts| - 1];
    forall k | 0 <= k < |fewer|
      ensures LegalRun(v, Joined(fewer[..k])) && ServedOne(Run(v, Joined(fewer[..k])), ready[k], fewer[k], answered[k])
    {
      assert fewer[..k] == parts[..k];
    }
  }

  /** The descriptors that are ready are served in order. */
  method ServeReady(sup: Supervisor, ready: seq<Ready>, ghost w: World, ghost h: seq<Event>, ghost es: seq<Event>)
    returns (replies: seq<Option<Reply>>, ghost parts: seq<seq<Event>>)
    requires sup.Did(w, h, es)
    modifies sup.services, sup.kernel, sup`history
    ensures sup.Did(w, h, es + Joined(parts)) && Ticks(old(sup.kernel.ms), sup.kernel.ms)
    ensures Served(old(sup.Snapshot()), ready, parts, replies) && |parts| == |ready|
  {
    hide Supervisor.Did, ServedOne, Served, Joined, LegalRun, Run;
    ghost var v := sup.Snapshot();
    replies, parts := [], [];
    assert Served(v, ready, [], []) && Joined([]) == [] by { NothingServed(v, ready); }
    sup.DidNothing(w, h, es);
    for k := 0 to |ready|
      invariant |parts| == k && Served(v, ready, parts, replies)
      invariant sup.Did(v, h + es, Joined(parts)) && Ticks(old(sup.kernel.ms), sup.kernel.ms)
    {
      sup.DidNothing(v, h + es, Joined(parts));
      var reply;
      ghost var part: seq<Event>;
      reply, part := ServeOne(sup, ready[k], v, h + es, Joined(parts));
      ServedMore(v, ready, parts, replies, part, reply);
      replies, parts := replies + [reply], parts + [part];
    }
    sup.DidMore(w, h, es, v, Joined(parts));
  }

  method ServeOne(sup: Supervisor, r: Ready, ghost w: World, ghost h: seq<Event>, ghost es: seq<Event>)
    returns (reply: Option<Reply>, ghost part: seq<Event>)
    requires sup.Did(w, h, es)
    modifies sup.services, sup.kernel, sup`history
    ensures sup.Did(w, h, es + part) && Ticks(old(sup.kernel.ms), sup.kernel.ms)
    ensures ServedOne(old(sup.Snapshot()), r, part, reply)
  {
    hide Supervisor.Did, Answers, Drained, Taken, Refused, Asked, SameButStream;
    reply, part := None, [];
    assert es + [] == es;
    match r
    case Line(line) =>
      var answer;
      answer, part := HandleControlCommand(sup, line, w, h, es);
      reply := Some(answer);
    case Output(i, c) =>
      if i < sup.services.Length && sup.services[i].active {
        part := DrainStream(sup, i, c, w, h, es);
      }
  }

  lemma NothingServed(v: World, ready: seq<Ready>)
    ensures Served(v, ready, [], []) && Joined([]) == []
  {
  }

  // ---------------------------------------------------------------- reconciling

  /** A scan makes the table that of the listing; then services whose directory is gone are dealt with. */
  ghost predicate Reconciled(root: Text, v: World, turn: Turn, scan: seq<Event>, missing: seq<seq<Event>>) {
    if !turn.readable then scan == [] && missing == []
    else
      && scan != [] && scan[0] == ScanOpen && OnlyScan(scan)
      && LegalRun(v, scan) && Run(v, scan).svcs == Scanned(v.svcs, root, turn.entries)
      && |missing| == |v.svcs| && MissingHandled(Run(v, scan), missing)
      && LegalRun(v, scan + Joined(missing))
      && forall j :: 0 <= j < |v.svcs| ==> Handled(Run(v, scan).svcs[j], Run(v, scan + Joined(missing)).svcs[j])
  }

  /** `scan_services`, then `handle_missing_services` if the root directory could be read. */
  method Reconcile(sup: Supervisor, turn: Turn, ghost w: World, ghost h: seq<Event>, ghost es: seq<Event>)
    returns (ghost scan: seq<Event>, ghost missing: seq<seq<Event>>)
    requires sup.Did(w, h, es)
    modifies sup.services, sup.kernel`sent, sup.kernel`fds, sup`history
    ensures sup.Did(w, h, es + (scan + Joined(missing)))
    ensures Reconciled(sup.root, old(sup.Snapshot()), turn, scan, missing)
  {
    hide Supervisor.Did, Scanned, Handled, OnlyScan, LegalRun, Run, MissingHandled, Joined;
    ghost var v := sup.Snapshot();
    sup.DidNothing(w, h, es);
    var ok;
    ok, scan := ScanServices(sup, turn.readable, turn.entries, w, h, es);
    missing := [];
    assert Joined([]) == [] by { NothingServed(v, []); }
    assert es + scan == es + (scan + []);
    if ok {
      sup.DidSince(w, h, es, v, scan);
      sup.DidNothing(v, h + es, scan);
      missing := HandleMissingServices(sup, w, h, es + scan);
      assert es + scan + Joined(missing) == es + (scan + Joined(missing));
      sup.DidSince(w, h, es, v, scan + Joined(missing));
      sup.DidNothing(v, h + es, scan + Joined(missing));
    }
  }

  // ---------------------------------------------------------------- one turn

  /** What one turn did, phase by phase. */
  datatype Log = Log(reaps: seq<Event>, idle: int, doomed: seq<nat>, orphans: seq<nat>, at: int,
                     scan: seq<Event>, missing: seq<seq<Event>>, pass: seq<Event>,
                     served: seq<seq<Event>>, replies: seq<Option<Reply>>)

  function ReapSteps(l: Log): seq<Event> {
    ReapEvents(l.reaps, l.idle, l.doomed, l.orphans)
  }

  function BeforeScan(l: Log): seq<Event> {
    ReapSteps(l) + [Tick(l.at)]
  }

  function BeforePass(l: Log): seq<Event> {
    BeforeScan(l) + (l.scan + Joined(l.missing))
  }

  function TurnSteps(l: Log): seq<Event> {
    BeforePass(l) + l.pass + Joined(l.served)
  }

  predicate ScanDue(l: Log, nextScan: int, turn: Turn) {
    Seconds(l.at) >= nextScan || turn.reload
  }

  /** Scans are fifteen seconds apart unless one is asked for. */
  function NextScan(l: Log, nextScan: int, turn: Turn): int {
    if ScanDue(l, nextScan, turn) then Seconds(l.at) + 15 else nextScan
  }

  /**
   One turn from the world `v`: a reaping phase, up to the answer that nothing waits any more, a clock reading, a
   scan if it is due, a start pass at that clock reading, then what is ready.
   */
  ghost predicate TurnDone(root: Text, v: World, turn: Turn, nextScan: int, l: Log) {
    && ReapPhase(v, l.reaps, l.doomed, l.orphans)
    && LegalRun(v, BeforeScan(l))
    && (if ScanDue(l, nextScan, turn) then Reconciled(root, Run(v, BeforeScan(l)), turn, l.scan, l.missing)
        else l.scan == [] && l.missing == [])
    && LegalRun(v, BeforePass(l)) && Passes.IsPass(Run(v, BeforePass(l)), Seconds(l.at), l.pass)
    && LegalRun(v, BeforePass(l) + l.pass)
    && Served(Run(v, BeforePass(l) + l.pass), turn.ready, l.served, l.replies) && |l.served| == |turn.ready|
  }

  /**
   Reap, read the clock, scan when it is time, start what is due, serve what is ready. All that the kernel has
   answered meanwhile is what these steps stand for.
   */
  method OneTurn(sup: Supervisor, turn: Turn, nextScan: int, ghost w: World, ghost h: seq<Event>, ghost es: seq<Event>)
    returns (next: int, replies: seq<Option<Reply>>, ghost l: Log)
    requires sup.Did(w, h, es)
    modifies sup.services, sup.kernel, sup`history
    ensures sup.Did(w, h, es + TurnSteps(l)) && Ticks(old(sup.kernel.ms), sup.kernel.ms)
    ensures TurnDone(sup.root, old(sup.Snapshot()), turn, nextScan, l) && next == NextScan(l, nextScan, turn)
    ensures l.replies == replies && sup.kernel.answers == old(sup.kernel.answers) + Asked(TurnSteps(l))
  {
    hide Supervisor.Did, ReapPhase, AfterReapPhase, ReapEvents, Passes.IsPass, LegalRun, Run, Terminations, Served;
    hide Joined, Reconciled, Asked;
    ghost var v, was := sup.Snapshot(), sup.kernel.answers;
    sup.TracedNow(w, h, es);
    sup.DidNothing(w, h, es);
    ghost var reaps, idle, doomed, orphans := sup.ReapChildren(v, h + es, []);
    l := Log(reaps, idle, doomed, orphans, 0, [], [], [], [], []);
    assert [] + ReapSteps(l) == ReapSteps(l);
    var t := sup.Now(v, h + es, ReapSteps(l));
    l := l.(at := sup.kernel.ms);
    sup.DidNothing(v, h + es, BeforeScan(l));
    next := nextScan;
    assert Joined([]) == [] by { NothingServed(v, []); }
    assert BeforeScan(l) + ([] + []) == BeforeScan(l);
    if t >= nextScan || turn.reload {
      ghost var scan, missing := Reconcile(sup, turn, v, h + es, BeforeScan(l));
      l := l.(scan := scan, missing := missing);
      next := t + 15;
    }
    sup.DidNothing(v, h + es, BeforePass(l));
    ghost var pass := sup.StartPass(t, v, h + es, BeforePass(l));
    l := l.(pass := pass);
    sup.DidNothing(v, h + es, BeforePass(l) + l.pass);
    ghost var served;
    replies, served := ServeReady(sup, turn.ready, v, h + es, BeforePass(l) + l.pass);
    l := l.(served := served, replies := replies);
    sup.DidMore(w, h, es, v, TurnSteps(l));
    sup.AskedSince(w, h, es, TurnSteps(l), was);
  }

  // ---------------------------------------------------------------- the whole program

  function AllSteps(ls: seq<Log>): seq<Event> {
    if ls == [] then [] else AllSteps(ls[..|ls| - 1]) + TurnSteps(ls[|ls| - 1])
  }

  /** When the next scan is due after the turns logged in `ls`. */
  function ScanTime(start: int, turns: seq<Turn>, ls: seq<Log>): int
    requires |ls| <= |turns|
  {
    if ls == [] then start
    else
      var n := |ls| - 1;
      NextScan(ls[n], ScanTime(start, turns, ls[..n]), turns[n])
  }

  /** From the world `v` on, the first turns have been made one after the other. */
  ghost predicate TurnsDone(root: Text, v: World, turns: seq<Turn>, start: int, ls: seq<Log>) {
    |ls| <= |turns| &&
    forall k :: 0 <= k < |ls| ==>
      && LegalRun(v, AllSteps(ls[..k]))
      && TurnDone(root, Run(v, AllSteps(ls[..k])), turns[k], ScanTime(start, turns, ls[..k]), ls[k])
  }

  lemma TurnsNone(root: Text, v: World, turns: seq<Turn>, start: int)
    ensures TurnsDone(root, v, turns, start, []) && AllSteps([]) == [] && ScanTime(start, turns, []) == start
  {
  }

  lemma TurnsMore(root: Text, v: World, turns: seq<Turn>, start: int, ls: seq<Log>, l: Log)
    requires TurnsDone(root, v, turns, start, ls) && |ls| < |turns| && LegalRun(v, AllSteps(ls))
    requires TurnDone(root, Run(v, AllSteps(ls)), turns[|ls|], ScanTime(start, turns, ls), l)
    ensures TurnsDone(root, v, turns, start, ls + [l]) && AllSteps(ls + [l]) == AllSteps(ls) + TurnSteps(l)
    ensures ScanTime(start, turns, ls + [l]) == NextScan(l, ScanTime(start, turns, ls), turns[|ls|])
  {
    hide LegalRun, Run, TurnDone, TurnSteps, NextScan;
    var more := ls + [l];
    assert more[..|ls|] == ls;
    forall k | 0 <= k < |more|
      ensures LegalRun(v, AllSteps(more[..k]))
      ensures TurnDone(root, Run(v, AllSteps(more[..k])), turns[k], ScanTime(start, turns, more[..k]), more[k])
    {
      if k < |ls| {
        assert more[..k] == ls[..k];
      }
    }
  }

  lemma TurnsFewer(root: Text, v: World, turns: seq<Turn>, start: int, ls: seq<Log>)
    requires TurnsDone(root, v, turns, start, ls) && ls != []
    ensures TurnsDone(root, v, turns, start, ls[..|ls| - 1])
  {
    hide LegalRun, Run, TurnDone, TurnSteps, NextScan, AllSteps, ScanTime;
    var fewer := ls[..|ls| - 1];
    forall k | 0 <= k < |fewer|
      ensures LegalRun(v, AllSteps(fewer[..k]))
      ensures TurnDone(root, Run(v, AllSteps(fewer[..k])), turns[k], ScanTime(start, turns, fewer[..k]), fewer[k])
    {
      assert fewer[..k] == ls[..k];
    }
  }

  lemma SlotPartNoIo(svcs: seq<Service>, k: nat, part: seq<Event>)
    requires SlotPart(svcs, k, part)
    ensures NoIo(part)
  {
    hide AllDoomed;
  }

  lemma MissingFewer(v: World, parts: seq<seq<Event>>)
    requires MissingHandled(v, parts) && parts != []
    ensures MissingHandled(v, parts[..|parts| - 1])
  {
    hide LegalRun, Run, SlotPart, Joined;
    var fewer := parts[..|parts| - 1];
    forall k | 0 <= k < |fewer|
      ensures LegalRun(v, Joined(fewer[..k])) && SlotPart(Run(v, Joined(fewer[..k])).svcs, k, fewer[k])
    {
      assert fewer[..k] == parts[..k];
    }
  }

  lemma {:induction false} MissingNoIo(v: World, parts: seq<seq<Event>>)
    requires MissingHandled(v, parts)
    ensures NoIo(Joined(parts))
    decreases |parts|
  {
    hide LegalRun, Run, SlotPart;
    if parts != [] {
      MissingFewer(v, parts);
      MissingNoIo(v, parts[..|parts| - 1]);
      SlotPartNoIo(Run(v, Joined(parts[..|parts| - 1])).svcs, |parts| - 1, parts[|parts| - 1]);
    }
  }

  lemma BeforePassNoIo(root: Text, v: World, turn: Turn, nextScan: int, l: Log)
    requires TurnDone(root, v, turn, nextScan, l)
    ensures NoIo(BeforePass(l) + l.pass)
  {
    hide LegalRun, Run, Scanned, Handled, MissingHandled, Served, Joined, AllDoomed, AllOrphans;
    hide SomeUnrequested;
    assert NoIo(BeforeScan(l));
    if ScanDue(l, nextScan, turn) && turn.readable {
      MissingNoIo(Run(Run(v, BeforeScan(l)), l.scan), l.missing);
      assert NoIo(l.scan);
    } else {
      assert Joined([]) == [] by { NothingServed(v, []); }
    }
    var u := Run(v, BeforePass(l));
    Passes.PicksAreStarts(u.svcs, Seconds(l.at), |u.svcs|, l.pass);
    assert NoIo(l.pass);
  }

  lemma ServedOneBalanced(u: World, r: Ready, part: seq<Event>, reply: Option<Reply>)
    requires Ledger.Inv(u) && ServedOne(u, r, part, reply) && LegalRun(u, part)
    ensures Balanced(u, part)
  {
    hide LegalRun, Run, Drained, AllDoomed, Balanced, Understand, Ledger.Inv;
    match r
    case Line(line) =>
      AnswersNoIo(u.svcs, Understand(line), reply.value, part);
      NoIoBalanced(u, part);
    case Output(i, c) =>
      if i < |u.svcs| && u.svcs[i].active {
        DrainedBalanced(u, i, c, part);
      } else {
        BalancedNone(u);
      }
  }

  lemma AnswersNoIo(svcs: seq<Service>, req: Request, reply: Reply, part: seq<Event>)
    requires Answers(svcs, req, reply, part)
    ensures NoIo(part)
  {
    hide AllDoomed;
    match req
    case Operate(op, name) =>
      var k := FindByName(svcs, name);
      if k.Some? {
        PerformsNoIo(svcs, op, k.value, part);
      }
    case _ =>
  }

  lemma PerformsNoIo(svcs: seq<Service>, op: Operation, k: nat, part: seq<Event>)
    requires Performs(svcs, op, k, part)
    ensures NoIo(part)
  {
    hide AllDoomed;
  }

  lemma {:induction false} ServedBalanced(v: World, ready: seq<Ready>, parts: seq<seq<Event>>,
                                          replies: seq<Option<Reply>>)
    requires Ledger.Inv(v) && Served(v, ready, parts, replies) && LegalRun(v, Joined(parts))
    ensures Balanced(v, Joined(parts))
    decreases |parts|
  {
    hide Legal, Step, LegalRun, Run, Balanced, ServedOne, Ledger.Inv;
    if parts == [] {
      BalancedNone(v);
    } else {
      var n := |parts| - 1;
      ServedFewer(v, ready, parts, replies);
      RunSplit(v, Joined(parts[..n]), parts[n]);
      Ledger.RunKeeps(v, Joined(parts[..n]));
      ServedBalanced(v, ready, parts[..n], replies[..n]);
      ServedOneBalanced(Run(v, Joined(parts[..n])), ready[n], parts[n], replies[n]);
      BalancedConcat(v, Joined(parts[..n]), parts[n]);
    }
  }

  /** A turn writes to each log what it reads for it, unless a step fails. */
  lemma TurnBalanced(root: Text, v: World, turn: Turn, nextScan: int, l: Log)
    requires Ledger.Inv(v) && TurnDone(root, v, turn, nextScan, l) && LegalRun(v, TurnSteps(l))
    ensures Balanced(v, TurnSteps(l))
  {
    hide Legal, Step, LegalRun, Run, Balanced, BeforePass, Served, Joined, Ledger.Inv;
    BeforePassNoIo(root, v, turn, nextScan, l);
    NoIoBalanced(v, BeforePass(l) + l.pass);
    RunSplit(v, BeforePass(l) + l.pass, Joined(l.served));
    Ledger.RunKeeps(v, BeforePass(l) + l.pass);
    ServedBalanced(Run(v, BeforePass(l) + l.pass), turn.ready, l.served, l.replies);
    BalancedConcat(v, BeforePass(l) + l.pass, Joined(l.served));
  }

  /** So do any number of turns. */
  lemma {:induction false} TurnsBalanced(root: Text, v: World, turns: seq<Turn>, start: int, ls: seq<Log>)
    requires Ledger.Inv(v) && TurnsDone(root, v, turns, start, ls) && LegalRun(v, AllSteps(ls))
    ensures Balanced(v, AllSteps(ls))
    decreases |ls|
  {
    hide Legal, Step, LegalRun, Run, Balanced, TurnDone, TurnSteps, ScanTime, Ledger.Inv;
    if ls == [] {
      BalancedNone(v);
    } else {
      var n := |ls| - 1;
      TurnsFewer(root, v, turns, start, ls);
      RunSplit(v, AllSteps(ls[..n]), TurnSteps(ls[n]));
      TurnsBalanced(root, v, turns, start, ls[..n]);
      Ledger.RunKeeps(v, AllSteps(ls[..n]));
      TurnBalanced(root, Run(v, AllSteps(ls[..n])), turns[n], ScanTime(start, turns, ls[..n]), ls[n]);
      BalancedConcat(v, AllSteps(ls[..n]), TurnSteps(ls[n]));
    }
  }

  /** How the program ended: see `ShutdownDone`. */
  datatype Ending = Ending(first: seq<nat>, rest: seq<nat>, wait: seq<Event>, left: World,
                           wait2: seq<Event>, last: seq<Service>)

  ghost predicate EndingDone(v: World, x: Ending) {
    ShutdownDone(v, x.first, x.rest, x.wait, x.left, x.wait2, x.last)
  }

  ghost function EndingSteps(v: World, x: Ending): seq<Event>
    requires EndingDone(v, x)
  {
    ShutdownSteps(v.svcs, x.first + x.rest, x.wait, x.left.svcs, x.wait2, x.last)
  }

  /** From the world `o`: the clock is read, the turns are made, everything is shut down, and `history` is all of it. */
  ghost predicate ProgramDone(root: Text, o: World, turns: seq<Turn>, at: int, ls: seq<Log>, x: Ending,
                              history: seq<Event>) {
    var before := [Tick(at)] + AllSteps(ls);
    && LegalRun(o, [Tick(at)]) && TurnsDone(root, Run(o, [Tick(at)]), turns, Seconds(at), ls) && |ls| == |turns|
    && LegalRun(o, before) && EndingDone(Run(o, before), x) && history == before + EndingSteps(Run(o, before), x)
  }

  /** The whole program writes to each log what it reads for it, unless a step fails. */
  lemma ProgramBalanced(root: Text, o: World, turns: seq<Turn>, at: int, ls: seq<Log>, x: Ending, history: seq<Event>)
    requires Ledger.Inv(o) && ProgramDone(root, o, turns, at, ls, x, history) && LegalRun(o, history)
    ensures Balanced(o, history)
  {
    hide Legal, Step, LegalRun, Run, Balanced, AllSteps, TurnsDone, ShutdownDone, ShutdownSteps, Ledger.Inv;
    var before := [Tick(at)] + AllSteps(ls);
    var v := Run(o, before);
    RunSplit(o, before, EndingSteps(v, x));
    RunSplit(o, [Tick(at)], AllSteps(ls));
    Ledger.RunKeeps(o, [Tick(at)]);
    Ledger.RunKeeps(o, before);
    NoIoBalanced(o, [Tick(at)]);
    TurnsBalanced(root, Run(o, [Tick(at)]), turns, Seconds(at), ls);
    BalancedConcat(o, [Tick(at)], AllSteps(ls));
    EndingBalanced(v, x);
    BalancedConcat(o, before, EndingSteps(v, x));
  }

  lemma EndingBalanced(v: World, x: Ending)
    requires Ledger.Inv(v) && EndingDone(v, x) && LegalRun(v, EndingSteps(v, x))
    ensures Balanced(v, EndingSteps(v, x))
  {
    hide ShutdownDone, LegalRun, Balanced, Ledger.Inv;
    ShutdownBalanced(v, x.first, x.rest, x.wait, x.left, x.wait2, x.last);
  }

  /** The replies sent are those of the turns. */
  predicate Replied(ls: seq<Log>, replies: seq<seq<Option<Reply>>>) {
    |replies| == |ls| && forall k :: 0 <= k < |ls| ==> ls[k].replies == replies[k]
  }

  /** Turn after turn, from the world `v`. */
  method RunTurns(sup: Supervisor, turns: seq<Turn>, start: int,
                  ghost w: World, ghost h: seq<Event>, ghost es: seq<Event>)
    returns (replies: seq<seq<Option<Reply>>>, ghost ls: seq<Log>)
    requires sup.Did(w, h, es) && Seconds(sup.kernel.ms) <= CLOCK_MAX
    modifies sup.services, sup.kernel, sup`history
    ensures sup.Did(w, h, es + AllSteps(ls)) && Seconds(sup.kernel.ms) <= CLOCK_MAX
    ensures TurnsDone(sup.root, old(sup.Snapshot()), turns, start, ls) && |ls| == |turns| && Replied(ls, replies)
  {
    hide Supervisor.Did, TurnDone, TurnsDone, TurnSteps, LegalRun, Run, AllSteps, ScanTime, NextScan, Asked;
    ghost var v := sup.Snapshot();
    sup.DidNothing(w, h, es);
    replies, ls := [], [];
    TurnsNone(sup.root, v, turns, start);
    var nextScan := start;
    for k := 0 to |turns|
      invariant |ls| == k && sup.Did(v, h + es, AllSteps(ls)) && Seconds(sup.kernel.ms) <= CLOCK_MAX
      invariant TurnsDone(sup.root, v, turns, start, ls) && nextScan == ScanTime(start, turns, ls)
      invariant Replied(ls, replies)
    {
      sup.DidNothing(v, h + es, AllSteps(ls));
      ghost var l;
      var answered;
      nextScan, answered, l := OneTurn(sup, turns[k], nextScan, v, h + es, AllSteps(ls));
      TurnsMore(sup.root, v, turns, start, ls, l);
      replies, ls := replies + [answered], ls + [l];
    }
    sup.DidMore(w, h, es, v, AllSteps(ls));
  }

  /**
   The whole program: however many turns are made and whatever they meet, the history is exactly the turns and
   the shutdown, every step of it is legal, so the ledgers hold throughout; each log below the root directory is
   in the end what it was at first followed by what was written to it, which is what was read for it unless a
   step has failed; and nothing is running and no descriptor is open.
   */
  method Supervise(root: Text, turns: seq<Turn>)
    returns (sup: Supervisor, replies: seq<seq<Option<Reply>>>, ghost at: int, ghost ls: seq<Log>, ghost x: Ending)
    ensures fresh(sup) && sup.Valid() && Fresh(sup.origin) && sup.root == root
    ensures ProgramDone(root, sup.origin, turns, at, ls, x, sup.history) && Replied(ls, replies)
    ensures Conserves(root, sup.origin, sup.found, sup.history, sup.kernel.files)
    ensures sup.kernel.received == Taken(sup.history) && sup.kernel.answers == Asked(sup.history)
    ensures sup.kernel.refusals == 0 ==>
              forall p :: LogBelow(root, p) ==>
                Content(sup.kernel.files, p) == Content(sup.found, p) + Total(sup.origin, sup.history, p, Read)
    ensures forall i :: 0 <= i < sup.services.Length ==> GivenUp(sup.services[i])
    ensures sup.kernel.fds == {}
  {
    hide Supervisor.Did, GivenUp, LegalRun, Run, TurnsDone, AllSteps, ShutdownDone, ShutdownSteps, Balanced;
    hide Gains, Ledger.Inv;
    hide Fresh, Content, LogBelow, Total, Taken, Asked;
    sup := new Supervisor(root);
    ghost var w := sup.Snapshot();
    JustBorn(sup);
    var start := sup.Now(w, [], []);
    at := sup.kernel.ms;
    assert [] + [Tick(at)] == [Tick(at)];
    sup.DidNothing(w, [], [Tick(at)]);
    replies, ls := RunTurns(sup, turns, start, w, [], [Tick(at)]);
    ghost var before := [Tick(at)] + AllSteps(ls);
    sup.DidNothing(w, [], before);
    ghost var v := sup.Snapshot();
    ghost var first, rest, wait, left, wait2, last := ShutDown(sup, w, [], before);
    x := Ending(first, rest, wait, left, wait2, last);
    ghost var history := before + EndingSteps(v, x);
    AllDone(sup, w, history);
    ProgramBalanced(root, w, turns, at, ls, x, history);
    if sup.kernel.refusals == 0 {
      NothingLost(sup);
    }
  }

  /** Unless the kernel has refused something, each log holds all that was read for it. */
  lemma NothingLost(sup: Supervisor)
    requires sup.Valid() && LegalRun(sup.origin, sup.history) && sup.kernel.refusals == 0
    requires Conserves(sup.root, sup.origin, sup.found, sup.history, sup.kernel.files)
    ensures forall p :: LogBelow(sup.root, p) ==>
              Content(sup.kernel.files, p) == Content(sup.found, p) + Total(sup.origin, sup.history, p, Read)
  {
    hide Ledger.Inv, LegalRun, Run, Logged, Lossy, Total, Content, LogBelow, Conserves;
    NothingRefused(sup.history);
    forall p | LogBelow(sup.root, p)
      ensures Content(sup.kernel.files, p) == Content(sup.found, p) + Total(sup.origin, sup.history, p, Read)
    {
      ConservesAll(sup.root, sup.origin, sup.found, sup.history, sup.kernel.files, p);
    }
  }

  lemma AllDone(sup: Supervisor, w: World, history: seq<Event>)
    requires sup.Did(w, [], history) && sup.origin == w
    ensures sup.Valid() && sup.history == history && LegalRun(w, history)
    ensures Gains(sup.root, w, sup.found, history, sup.kernel.files) && Ledger.Inv(w)
    ensures sup.kernel.received == Taken(history) && sup.kernel.answers == Asked(history)
  {
    hide Ledger.Inv, Gains, Logged, Run;
    assert [] + history == history;
    sup.LogsNow();
  }

  lemma JustBorn(sup: Supervisor)
    requires sup.Valid() && sup.history == []
    ensures sup.Did(sup.Snapshot(), [], []) && sup.origin == sup.Snapshot()
  {
    hide Ledger.Inv;
    EmptyRun(sup.Snapshot());
    EmptyRun(sup.origin);
  }
}
