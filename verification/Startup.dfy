/**
 Bringing the services up with turns of the main loop: between one start pass and the next the program reaps,
 reads the clock, scans, answers and drains, and while none of this disturbs a service each turn brings up one
 more level of the dependency graph.
 */
module Startup {
  import opened Types
  import opened Machine
  import opened Ledger
  import opened Propagation
  import opened Reaping
  import opened Passes
  import opened BringUp
  import opened Registry
  import opened Scan
  import opened Drains
  import opened Commands
  import opened Control
  import opened MainLoop
  import opened TextLines
  import Depends

  /** The listing shows the registered directories, and no others. */
  ghost predicate ListsRegistered(root: Text, svcs: seq<Service>, entries: seq<Entry>) {
    forall dir :: Offers(root, entries, dir) <==> FindByDir(svcs, dir).Some?
  }

  /** Output to drain, or a command that operates no service. */
  predicate Harmless(r: Ready) {
    r.Line? ==> !Understand(r.line).Operate?
  }

  /**
   A turn in which nothing goes wrong: only children held by no slot end, no service is without its logger, a scan
   finds every service again, no service is operated, no launch fails, and every deferred start has come due.
   */
  ghost predicate CalmTurn(root: Text, v: World, turn: Turn, nextScan: int, l: Log)
    requires TurnDone(root, v, turn, nextScan, l)
  {
    && CalmRun(v, l.reaps) && NoneLacksLogger(Run(v, l.reaps).svcs)
    && (ScanDue(l, nextScan, turn) && turn.readable ==> ListsRegistered(root, Run(v, BeforeScan(l)).svcs, turn.entries))
    && AllDue(Run(v, BeforePass(l)).svcs, Seconds(l.at)) && Faultless(l.pass)
    && forall k :: 0 <= k < |turn.ready| ==> Harmless(turn.ready[k])
  }

  // ---------------------------------------------------------------- reaping

  lemma CalmNotUnrequested(w: World, e: Event)
    requires Legal(w, e) && Calm(w, e)
    ensures !Unrequested(w, e)
  {
  }

  lemma {:induction false} CalmReaps(w: World, es: seq<Event>)
    requires LegalRun(w, es) && CalmRun(w, es)
    ensures !SomeUnrequested(w, es)
    decreases |es|
  {
    if es != [] {
      CalmReaps(w, es[..|es| - 1]);
      CalmNotUnrequested(Run(w, es[..|es| - 1]), es[|es| - 1]);
      hide Legal, Step, Calm, Unrequested;
    }
  }

  lemma ReapsGap(v: World, l: Log)
    requires ReapPhase(v, l.reaps, l.doomed, l.orphans) && LegalRun(v, BeforeScan(l))
    requires CalmRun(v, l.reaps) && NoneLacksLogger(Run(v, l.reaps).svcs)
    ensures Gap(v, BeforeScan(l))
  {
    hide Legal, Step, LegalRun, Run, CalmRun, Undisturbed, AllDoomed, AllOrphans, SomeUnrequested;
    hide NoneLacksLogger;
    CalmReaps(v, l.reaps);
    NoneMarked(Run(v, l.reaps).svcs);
    NoOrphans(Run(v, l.reaps).svcs, l.orphans);
    var busy := l.reaps + [Idle(l.idle)];
    OnlyReaps(l.reaps, l.idle);
    CalmGap(v, l.reaps);
    RunSplit(v, busy, [Tick(l.at)]);
    RunSplit(v, l.reaps, [Idle(l.idle)]);
    IdleGap(Run(v, l.reaps), l.idle);
    GapMore(v, l.reaps, [Idle(l.idle)]);
    TickGap(Run(v, busy), l.at);
    GapMore(v, busy, [Tick(l.at)]);
  }

  lemma IdleGap(u: World, idle: int)
    requires LegalRun(u, [Idle(idle)])
    ensures Gap(u, [Idle(idle)])
  {
    IdleRun(u, idle);
    hide Undisturbed;
    UndisturbedSelf(u.svcs);
  }

  lemma TickGap(u: World, at: int)
    requires LegalRun(u, [Tick(at)])
    ensures Gap(u, [Tick(at)])
  {
    assert [Tick(at)][..0] == [];
    EmptyRun(u);
    assert Legal(u, Tick(at)) && Step(u, Tick(at)).svcs == u.svcs;
    hide Step, Legal, Undisturbed;
    UndisturbedSelf(u.svcs);
    GapOne(u, Tick(at));
  }

  // ---------------------------------------------------------------- scanning

  lemma SeenAgain(s: Service)
    requires s.active && s.present && !s.stopping
    ensures Rescanned(s, true) == s
  {
  }

  lemma NewUnknown(svcs: seq<Service>, t: seq<Service>, i: nat)
    requires |t| == |svcs| && UniqueDirs(t) && i < |svcs| && !svcs[i].active && t[i].active
    requires forall j :: 0 <= j < |svcs| && svcs[j].active ==> t[j].active && t[j].dir == svcs[j].dir
    ensures FindByDir(svcs, t[i].dir) == None
  {
    forall j | 0 <= j < |svcs| ensures !Placed(svcs[j], t[i].dir) {
      assert svcs[j].active ==> j != i && t[j].active && t[j].dir == svcs[j].dir;
    }
  }

  lemma NotNew(root: Text, es: seq<Entry>, s: Service)
    requires !s.active || !Offers(root, es, s.dir)
    ensures !exists k :: NewFrom(root, es, s, k)
  {
  }

  /** A scan that finds every enabled service again and nothing new changes nothing. */
  lemma RescanSame(svcs: seq<Service>, root: Text, entries: seq<Entry>)
    requires UniqueDirs(svcs) && Enabled(svcs) && ListsRegistered(root, svcs, entries)
    ensures Scanned(svcs, root, entries) == svcs
  {
    hide Scanned, NewFrom, NoneOmitted, Offers, Rescanned, UniqueDirs, FindByDir, NewListed, OldKept;
    var t := Scanned(svcs, root, entries);
    ScanKeeps(svcs, root, entries);
    OldSame(svcs, root, entries, t);
    forall i | 0 <= i < |svcs| && !svcs[i].active ensures t[i] == svcs[i] {
      if t[i].active {
        NewUnknown(svcs, t, i);
      }
      NotNew(root, entries, t[i]);
      NewOrSame(svcs, root, entries, t, i);
    }
  }

  lemma OldSame(svcs: seq<Service>, root: Text, entries: seq<Entry>, t: seq<Service>)
    requires UniqueDirs(svcs) && Enabled(svcs) && ListsRegistered(root, svcs, entries)
             && OldKept(svcs, root, entries, t)
    ensures |t| == |svcs| && forall i :: 0 <= i < |svcs| && svcs[i].active ==> t[i] == svcs[i]
  {
    hide Offers, Rescanned, UniqueDirs, FindByDir;
    forall i | 0 <= i < |svcs| && svcs[i].active ensures t[i] == svcs[i] {
      PlacedOnce(svcs, i);
      SeenAgain(svcs[i]);
    }
  }

  lemma NewOrSame(svcs: seq<Service>, root: Text, entries: seq<Entry>, t: seq<Service>, i: nat)
    requires NewListed(svcs, root, entries, t) && i < |svcs| && !svcs[i].active
    ensures |t| == |svcs| && (t[i] == svcs[i] || exists k :: NewFrom(root, entries, t[i], k))
  {
    hide NewFrom;
  }

  lemma ScanStep(w: World, e: Event, i: nat)
    requires Legal(w, e) && ScanEvent(e) && i < |w.svcs|
    ensures w.svcs[i].active ==> Step(w, e).svcs[i].active
  {
    hide Handles, Sends, ChildrenAfter, ClockAfter;
  }

  lemma RegisterFills(w: World, e: Event)
    requires Legal(w, e) && e.Do? && e.a.Register?
    ensures e.i < |w.svcs| && !w.svcs[e.i].active && Step(w, e).svcs[e.i].active
  {
    hide Handles, Sends, ChildrenAfter, ClockAfter;
  }

  /** A scan registers something only by filling a free slot, which it does not free again. */
  lemma {:induction false} ScanSameTable(u: World, es: seq<Event>)
    requires LegalRun(u, es) && OnlyScan(es)
    ensures forall i :: 0 <= i < |u.svcs| && u.svcs[i].active ==> Run(u, es).svcs[i].active
    ensures (forall i :: 0 <= i < |u.svcs| && Run(u, es).svcs[i].active ==> u.svcs[i].active) ==> SameTable(es)
    decreases |es|
  {
    hide Legal, Step;
    if es != [] {
      var c, e := es[..|es| - 1], es[|es| - 1];
      ScanSameTable(u, c);
      forall i: nat | i < |u.svcs| {
        ScanStep(Run(u, c), e, i);
      }
      assert ScanEvent(e);
      if e.Do? && e.a.Register? {
        RegisterFills(Run(u, c), e);
        assert Run(u, es).svcs[e.i].active && !u.svcs[e.i].active;
      } else {
        assert SameTable(c) ==> SameTable(es);
      }
    }
  }

  lemma {:induction false} NothingMissing(v: World, parts: seq<seq<Event>>)
    requires MissingHandled(v, parts) && forall i :: 0 <= i < |v.svcs| ==> !Orphaned(v.svcs[i])
    ensures Joined(parts) == []
    decreases |parts|
  {
    hide LegalRun, Run, StopsAfter;
    if parts != [] {
      var n := |parts| - 1;
      MissingFewer(v, parts);
      NothingMissing(v, parts[..n]);
      EmptyRun(v);
      assert SlotPart(Run(v, Joined(parts[..n])).svcs, n, parts[n]);
    }
  }

  lemma EnabledPresent(svcs: seq<Service>)
    requires Enabled(svcs)
    ensures forall i :: 0 <= i < |svcs| ==> !Orphaned(svcs[i])
  {
  }

  lemma RescanGap(root: Text, u: World, turn: Turn, scan: seq<Event>, missing: seq<seq<Event>>)
    requires Inv(u) && Enabled(u.svcs) && Reconciled(root, u, turn, scan, missing)
    requires turn.readable ==> ListsRegistered(root, u.svcs, turn.entries)
    ensures Gap(u, scan + Joined(missing))
  {
    hide Legal, Step, LegalRun, Run, Scanned, Handled, MissingHandled, OnlyScan, ProcLedger, FdLedger, SlotOk;
    hide Enabled;
    hide ListsRegistered, SameTable, Undisturbed, Joined;
    if turn.readable {
      RescanSame(u.svcs, root, turn.entries);
      EnabledPresent(u.svcs);
      NothingMissing(Run(u, scan), missing);
      assert scan + [] == scan;
      ScanSameTable(u, scan);
      UndisturbedSelf(u.svcs);
    } else {
      assert Joined([]) == [] by { NothingServed(u, []); }
      assert [] + [] == scan + Joined(missing);
      NoGap(u);
    }
  }

  // ---------------------------------------------------------------- serving

  lemma {:induction false} IoCalmRun(u: World, es: seq<Event>, i: nat, c: Channel)
    requires LegalRun(u, es) && OnStream(es, i, c)
    ensures CalmRun(u, es)
    decreases |es|
  {
    hide Legal, Step;
    if es != [] {
      IoCalmRun(u, es[..|es| - 1], i, c);
    }
  }

  lemma AloneCalmRun(u: World, e: Event)
    requires LegalRun(u, [e]) && (e.Script? || (e.Do? && e.a.Cmd? && e.a.cmd.Send?))
    ensures CalmRun(u, [e])
  {
    hide Step;
    assert [e][..0] == [];
  }

  lemma HarmlessSteps(svcs: seq<Service>, req: Request, reply: Reply, part: seq<Event>)
    requires Answers(svcs, req, reply, part) && !req.Operate?
    ensures || part == [] || (exists k: nat, sig :: part == [Do(k, Cmd(Send(sig)))])
            || exists asked :: part == [Script(asked)]
  {
    match req
    case SendTo(name, sig) =>
      var k := FindByName(svcs, name);
      assert k.Some? && svcs[k.value].pid > 0 ==> part == [Do(k.value, Cmd(Send(sig)))];
    case _ =>
  }

  lemma ServedOneGap(u: World, r: Ready, part: seq<Event>, reply: Option<Reply>)
    requires Inv(u) && ServedOne(u, r, part, reply) && LegalRun(u, part) && Harmless(r)
    ensures Gap(u, part)
  {
    hide LegalRun, Run, Drained, AllDoomed, Understand, Undisturbed, CalmRun, Performs, Inv;
    match r
    case Line(line) =>
      HarmlessSteps(u.svcs, Understand(line), reply.value, part);
      if part == [] {
        NoGap(u);
      } else {
        assert part == [part[0]];
        AloneCalmRun(u, part[0]);
        CalmGap(u, part);
      }
    case Output(i, c) =>
      if i < |u.svcs| && u.svcs[i].active {
        DrainedBalanced(u, i, c, part);
        IoCalmRun(u, part, i, c);
        CalmGap(u, part);
      } else {
        NoGap(u);
      }
  }

  lemma {:induction false} ServedGap(v: World, ready: seq<Ready>, parts: seq<seq<Event>>,
                                     replies: seq<Option<Reply>>)
    requires Inv(v) && Served(v, ready, parts, replies) && LegalRun(v, Joined(parts))
    requires forall k :: 0 <= k < |ready| ==> Harmless(ready[k])
    ensures Gap(v, Joined(parts))
    decreases |parts|
  {
    hide Legal, Step, LegalRun, Run, ServedOne, Undisturbed, Harmless, Inv;
    if parts == [] {
      NoGap(v);
    } else {
      var n := |parts| - 1;
      ServedFewer(v, ready, parts, replies);
      RunSplit(v, Joined(parts[..n]), parts[n]);
      RunKeeps(v, Joined(parts[..n]));
      ServedGap(v, ready, parts[..n], replies[..n]);
      ServedOneGap(Run(v, Joined(parts[..n])), ready[n], parts[n], replies[n]);
      GapMore(v, Joined(parts[..n]), parts[n]);
    }
  }

  // ---------------------------------------------------------------- turns

  /** Everything a calm turn does before its start pass disturbs nothing. */
  lemma BeforePassGap(root: Text, v: World, turn: Turn, nextScan: int, l: Log)
    requires Inv(v) && Enabled(v.svcs) && TurnDone(root, v, turn, nextScan, l) && CalmTurn(root, v, turn, nextScan, l)
    ensures Gap(v, BeforePass(l))
  {
    hide Legal, Step, LegalRun, Run, CalmRun, Enabled, Inv, ReapPhase, BeforeScan, Reconciled;
    hide ListsRegistered, IsPass, Served, Joined;
    ReapsGap(v, l);
    var u := Run(v, BeforeScan(l));
    RunKeeps(v, BeforeScan(l));
    if ScanDue(l, nextScan, turn) {
      RescanGap(root, u, turn, l.scan, l.missing);
    } else {
      assert Joined([]) == [] by { NothingServed(u, []); }
      assert l.scan + Joined(l.missing) == [];
      NoGap(u);
    }
    hide Undisturbed;
    GapMore(v, BeforeScan(l), l.scan + Joined(l.missing));
  }

  /** A calm turn brings up one more level and disturbs nothing. */
  lemma TurnBringsUp(root: Text, a: seq<Service>, v: World, turn: Turn, nextScan: int, l: Log, k: nat)
    requires Inv(v) && Enabled(v.svcs) && SameNames(a, v.svcs) && LevelUp(a, v, k)
    requires TurnDone(root, v, turn, nextScan, l) && CalmTurn(root, v, turn, nextScan, l) && LegalRun(v, TurnSteps(l))
    ensures Gap(v, TurnSteps(l)) && LevelUp(a, Run(v, TurnSteps(l)), k + 1)
  {
    hide Legal, Step, LegalRun, Run, CalmRun, Enabled, Inv, ReapPhase, BeforePass, Reconciled;
    hide ListsRegistered, IsPass, Served;
    hide LevelUp, SameNames, Undisturbed, AllDue, Harmless, Joined;
    BeforePassGap(root, v, turn, nextScan, l);
    var r := Round(BeforePass(l), Seconds(l.at), l.pass);
    LevelByLevel(a, v, r, k);
    var u := Run(v, BeforePass(l) + l.pass);
    RunSplit(v, BeforePass(l) + l.pass, Joined(l.served));
    RunKeeps(v, BeforePass(l) + l.pass);
    ServedGap(u, turn.ready, l.served, l.replies);
    GapMore(v, BeforePass(l) + l.pass, Joined(l.served));
    LevelKept(a, u, Joined(l.served), k + 1);
  }

  /** All the turns logged in `ls` are calm. */
  ghost predicate CalmTurns(root: Text, v: World, turns: seq<Turn>, start: int, ls: seq<Log>)
    requires TurnsDone(root, v, turns, start, ls)
  {
    forall k :: 0 <= k < |ls| ==>
      CalmTurn(root, Run(v, AllSteps(ls[..k])), turns[k], ScanTime(start, turns, ls[..k]), ls[k])
  }

  lemma CalmFewer(root: Text, v: World, turns: seq<Turn>, start: int, ls: seq<Log>)
    requires TurnsDone(root, v, turns, start, ls) && ls != [] && CalmTurns(root, v, turns, start, ls)
    ensures TurnsDone(root, v, turns, start, ls[..|ls| - 1]) && CalmTurns(root, v, turns, start, ls[..|ls| - 1])
  {
    hide LegalRun, Run, TurnDone, CalmTurn, AllSteps, ScanTime;
    TurnsFewer(root, v, turns, start, ls);
    var fewer := ls[..|ls| - 1];
    assert forall k :: 0 <= k < |fewer| ==> fewer[..k] == ls[..k] && fewer[k] == ls[k];
  }

  /** After `k` calm turns of the program every service whose dependencies bottom out within `k` levels is running. */
  lemma {:induction false} TurnsBringUp(root: Text, v: World, turns: seq<Turn>, start: int, ls: seq<Log>)
    requires Inv(v) && Enabled(v.svcs) && TurnsDone(root, v, turns, start, ls) && LegalRun(v, AllSteps(ls))
    requires CalmTurns(root, v, turns, start, ls)
    ensures Gap(v, AllSteps(ls))
    ensures forall i :: i in Grounded(v.svcs, |ls|) ==> On(Run(v, AllSteps(ls)).svcs, i)
    decreases |ls|
  {
    hide Legal, Step, LegalRun, Run, Inv, Enabled, TurnDone, CalmTurn, TurnSteps, ScanTime;
    if ls == [] {
      NoGap(v);
    } else {
      hide Grounded;
      var n := |ls| - 1;
      CalmFewer(root, v, turns, start, ls);
      RunSplit(v, AllSteps(ls[..n]), TurnSteps(ls[n]));
      TurnsBringUp(root, v, turns, start, ls[..n]);
      var u := Run(v, AllSteps(ls[..n]));
      RunKeeps(v, AllSteps(ls[..n]));
      TurnBringsUp(root, v.svcs, u, turns[n], ScanTime(start, turns, ls[..n]), ls[n], n);
      GapMore(v, AllSteps(ls[..n]), TurnSteps(ls[n]));
    }
  }

  /** From nothing running, as many calm turns as slots bring up exactly the startable services. */
  lemma TurnsBringUpExact(root: Text, v: World, turns: seq<Turn>, start: int, ls: seq<Log>)
    requires Inv(v) && Enabled(v.svcs) && TurnsDone(root, v, turns, start, ls) && LegalRun(v, AllSteps(ls))
    requires CalmTurns(root, v, turns, start, ls) && |ls| >= |v.svcs| && forall i :: !On(v.svcs, i)
    ensures forall i :: On(Run(v, AllSteps(ls)).svcs, i) <==> i in Startable(v.svcs)
  {
    hide Legal, Step, LegalRun, Run, Inv, Enabled, TurnsDone, CalmTurns, AllSteps, Grounded, Undisturbed;
    TurnsBringUp(root, v, turns, start, ls);
    StartableIsFixpoint(v.svcs);
    GroundedStays(v.svcs, |v.svcs|, |ls|);
    OnlyStartableRun(v, AllSteps(ls));
  }

  // ---------------------------------------------------------------- scanning and starting

  /** A scan is due in turn `k`. */
  predicate ScansIn(start: int, turns: seq<Turn>, ls: seq<Log>, k: nat)
    requires k < |ls| <= |turns|
  {
    ScanDue(ls[k], ScanTime(start, turns, ls[..k]), turns[k])
  }

  lemma {:induction false} ScanTimeSince(start: int, turns: seq<Turn>, ls: seq<Log>, j: nat)
    requires j < |ls| <= |turns| && ScansIn(start, turns, ls, j)
    requires forall i :: j < i < |ls| ==> !ScansIn(start, turns, ls, i)
    ensures ScanTime(start, turns, ls) == ls[j].at / 1000 + 15
    decreases |ls|
  {
    var n := |ls| - 1;
    var c := ls[..n];
    if j == n {
    } else {
      forall i | 0 <= i < n
        ensures c[i] == ls[i] && c[..i] == ls[..i] && ScansIn(start, turns, c, i) == ScansIn(start, turns, ls, i)
      {
      }
      ScanTimeSince(start, turns, c, j);
      assert !ScansIn(start, turns, ls, n);
    }
  }

  /** Between one scan and the next there are fifteen seconds, unless a reload is asked for. */
  lemma ScansApart(start: int, turns: seq<Turn>, ls: seq<Log>, j: nat, k: nat)
    requires j < k < |ls| <= |turns| && ScansIn(start, turns, ls, j)
    requires forall i :: j < i < k ==> !ScansIn(start, turns, ls, i)
    ensures ScansIn(start, turns, ls, k) <==> turns[k].reload || ls[k].at / 1000 >= ls[j].at / 1000 + 15
  {
    var c := ls[..k];
    forall i | 0 <= i < k
      ensures c[i] == ls[i] && c[..i] == ls[..i] && ScansIn(start, turns, c, i) == ScansIn(start, turns, ls, i)
    {
    }
    ScanTimeSince(start, turns, c, j);
  }

  /** A service added by a scan that starts by itself and waits for nobody is started in the same turn. */
  lemma AddedIsStarted(root: Text, v: World, turn: Turn, nextScan: int, l: Log, e: Entry, i: nat)
    requires Inv(v) && TurnDone(root, v, turn, nextScan, l) && i < |v.svcs|
    requires FoundAs(root, e, Run(v, BeforePass(l)).svcs[i]) && !e.down && !e.once && e.depends == []
    requires Seconds(l.at) >= 0 && Faultless(l.pass)
    ensures Run(v, BeforePass(l) + l.pass).svcs[i].state == Running
  {
    hide LegalRun, Run, Scanned, Handled, MissingHandled, Served, ReapPhase, Reconciled, Inv, BeforePass;
    var u := Run(v, BeforePass(l));
    RunKeeps(v, BeforePass(l));
    RunSplit(v, BeforePass(l), l.pass);
    NothingNeeded();
    assert Due(u.svcs[i], Seconds(l.at));
    assert DepsSatisfied(u.svcs[i], u.svcs);
    hide FoundAs, Due, DepsSatisfied;
    PassStarts(u, Seconds(l.at), |u.svcs|, l.pass, i);
  }

  lemma NothingNeeded()
    ensures Depends.Meaning([]) == []
  {
    Depends.EmptyLine();
    NoLines(Depends.OfLine);
  }
}
