/** What the shutdown sends to the loggers it does not tell to stop. */
module LoggerSignals {
  import opened Types
  import opened Machine
  import opened Ledger
  import opened Propagation
  import opened StopOrder
  import opened Shutdown

  /** The signals sent to the process `pid`, in order. */
  function To(sigs: seq<Signal>, pid: int): seq<Signal> {
    if sigs == [] then []
    else To(sigs[..|sigs| - 1], pid) + if sigs[|sigs| - 1].pid == pid then [sigs[|sigs| - 1]] else []
  }

  lemma {:induction false} ToConcat(a: seq<Signal>, b: seq<Signal>, pid: int)
    ensures To(a + b, pid) == To(a, pid) + To(b, pid)
    decreases |b|
  {
    if b == [] {
      assert a + b == a;
    } else {
      ToConcat(a, b[..|b| - 1], pid);
      assert (a + b)[..|a + b| - 1] == a + b[..|b| - 1];
    }
  }

  lemma {:induction false} ToNone(sigs: seq<Signal>, pid: int)
    requires forall g :: g in sigs ==> g.pid != pid
    ensures To(sigs, pid) == []
  {
    if sigs != [] {
      ToNone(sigs[..|sigs| - 1], pid);
    }
  }

  /** Slot `i` has no main process, and `pid` is its logger or, if it has none, held by no slot. */
  ghost predicate Alone(svcs: seq<Service>, i: nat, pid: int)
    requires i < |svcs|
  {
    Proc(svcs[i], Main) <= 0 && (Proc(svcs[i], Logger) == pid || (Proc(svcs[i], Logger) <= 0 && !Held(svcs, pid)))
  }

  /** Nothing is started, no command is obeyed, and the logger of slot `i` is neither told to stop nor killed. */
  predicate Spares(e: Event, i: nat) {
    e.Do? ==> !e.a.Launch? && !e.a.Cmd? && (e.i == i ==> !e.a.TerminateLogger? && !e.a.KillLogger?)
  }

  predicate AllSpare(es: seq<Event>, i: nat) {
    forall k :: 0 <= k < |es| ==> Spares(es[k], i)
  }

  /** In either case no other place in the table holds `pid`. */
  lemma AloneElsewhere(w: World, i: nat, pid: int, j: nat, r: Role)
    requires Inv(w) && i < |w.svcs| && j < |w.svcs| && pid > 0 && Alone(w.svcs, i, pid) && (j != i || r != Logger)
    ensures Proc(w.svcs[j], r) != pid
  {
    hide FdLedger, SlotOk, Deaf;
    if Proc(w.svcs[i], Logger) == pid {
      assert Proc(w.svcs[i], Logger) != Proc(w.svcs[j], r);
    }
  }

  lemma AloneStep(w: World, e: Event, i: nat, pid: int)
    requires Inv(w) && Legal(w, e) && i < |w.svcs| && pid > 0 && Alone(w.svcs, i, pid) && !(e.Do? && e.a.Launch?)
    ensures Alone(Step(w, e).svcs, i, pid)
  {
    var t := Step(w, e).svcs;
    forall j: nat, r | j < |t| ensures Proc(t[j], r) == Proc(w.svcs[j], r) || Proc(t[j], r) <= 0 {
      StepProcs(w, e, j, r);
    }
    forall j: nat, r | j < |t| && (j != i || r != Logger) ensures Proc(w.svcs[j], r) != pid {
      AloneElsewhere(w, i, pid, j, r);
    }
    hide Step, Legal, Inv, Proc;
  }

  /** Only stopping or killing the logger signals it, commands apart. */
  lemma SlotSends(s: Service, a: Action)
    requires !a.Cmd?
    ensures forall g :: g in ActionSends(s, a) ==>
              g.pid == if a.TerminateLogger? || a.KillLogger? then s.logPid else s.pid
    ensures ActionSends(s, a) != [] ==> a.Terminate? || a.TerminateLogger? || a.KillMain? || a.KillLogger?
  {
  }

  lemma SparedSlot(w: World, e: Event, i: nat, pid: int)
    requires Inv(w) && Legal(w, e) && e.Do? && i < |w.svcs| && pid > 0 && Alone(w.svcs, i, pid) && Spares(e, i)
    ensures forall g :: g in ActionSends(w.svcs[e.i], e.a) ==> g.pid != pid
  {
    hide Inv, Alone, DepsSatisfied, AllowedIo, ActionSends;
    SlotSends(w.svcs[e.i], e.a);
    if ActionSends(w.svcs[e.i], e.a) != [] {
      assert w.svcs[e.i].active;
      AloneElsewhere(w, i, pid, e.i, Main);
      if e.i != i {
        AloneElsewhere(w, i, pid, e.i, Logger);
      }
    }
  }

  lemma SparedSends(w: World, e: Event, i: nat, pid: int)
    requires Inv(w) && Legal(w, e) && i < |w.svcs| && pid > 0 && Alone(w.svcs, i, pid) && Spares(e, i)
    ensures forall g :: g in Sends(w, e) ==> g.pid != pid
  {
    if e.Do? {
      SparedSlot(w, e, i, pid);
    } else if e.Reap? && MainOf(w.svcs, e.pid).Some? {
      var k := MainOf(w.svcs, e.pid).value;
      assert Proc(w.svcs[k], Main) == e.pid;
      assert k != i;
      AloneElsewhere(w, i, pid, k, Logger);
    }
    hide Inv, Alone, Handles, ActionSends;
  }

  /** A stretch that spares the logger sends it nothing. */
  lemma {:induction false} SparedRun(w: World, es: seq<Event>, i: nat, pid: int)
    requires Inv(w) && LegalRun(w, es) && i < |w.svcs| && pid > 0 && Alone(w.svcs, i, pid) && AllSpare(es, i)
    ensures Alone(Run(w, es).svcs, i, pid) && To(Run(w, es).sent, pid) == To(w.sent, pid)
    decreases |es|
  {
    if es != [] {
      var c, e := es[..|es| - 1], es[|es| - 1];
      SparedRun(w, c, i, pid);
      RunKeeps(w, c);
      var u := Run(w, c);
      hide Inv, Alone, LegalRun, Run, To, Spares, Sends;
      AloneStep(u, e, i, pid);
      SparedSends(u, e, i, pid);
      ToConcat(u.sent, Sends(u, e), pid);
      ToNone(Sends(u, e), pid);
    }
  }

  // ---------------------------------------------------------------- the kills

  function LoggerKill(s: Service): seq<Signal> {
    if s.active && s.logPid > 0 then [Signal(s.logPid, SIGKILL, false)] else []
  }

  lemma KillStep(w: World, i: nat, a: Action)
    requires Legal(w, Do(i, a)) && (a.KillMain? || a.KillLogger?)
    ensures Step(w, Do(i, a)).svcs == w.svcs
    ensures Step(w, Do(i, a)).sent == w.sent + ActionSends(w.svcs[i], a)
  {
    hide Handles;
  }

  lemma KillOneRun(w: World, i: nat)
    requires i < |w.svcs| && LegalRun(w, KillOne(w.svcs[i], i))
    ensures var u := Run(w, KillOne(w.svcs[i], i));
            u.svcs == w.svcs && u.sent == w.sent + (GroupKill(w.svcs[i]) + LoggerKill(w.svcs[i]))
  {
    hide Step, Legal, LegalRun, Run;
    var s := w.svcs[i];
    var a := if s.active && s.pid > 0 then [Do(i, KillMain)] else [];
    var b := if s.active && s.logPid > 0 then [Do(i, KillLogger)] else [];
    RunSplit(w, a, b);
    KillMaybe(w, i, KillMain, a, GroupKill(s));
    KillMaybe(Run(w, a), i, KillLogger, b, LoggerKill(s));
    assert w.sent + GroupKill(s) + LoggerKill(s) == w.sent + (GroupKill(s) + LoggerKill(s));
  }

  lemma KillMaybe(w: World, i: nat, a: Action, es: seq<Event>, sends: seq<Signal>)
    requires i < |w.svcs| && (a.KillMain? || a.KillLogger?) && (es == [] || es == [Do(i, a)]) && LegalRun(w, es)
    requires sends == if es == [] then [] else ActionSends(w.svcs[i], a)
    ensures Run(w, es).svcs == w.svcs && Run(w, es).sent == w.sent + sends
  {
    hide Step, Legal, ActionSends;
    if es != [] {
      assert es[..0] == [];
      KillStep(w, i, a);
    }
  }

  lemma KillsMore(svcs: seq<Service>, n: nat)
    requires 0 < n <= |svcs|
    ensures KillSteps(svcs[..n]) == KillSteps(svcs[..n - 1]) + KillOne(svcs[n - 1], n - 1)
  {
    assert svcs[..n][..n - 1] == svcs[..n - 1];
  }

  lemma NoKillSteps(svcs: seq<Service>)
    ensures KillSteps(svcs[..0]) == [] && KillSteps(svcs[..|svcs|]) == KillSteps(svcs)
  {
    assert svcs[..0] == [] && svcs[..|svcs|] == svcs;
  }

  /** What killing slot `k` sends to `pid`. */
  lemma KillOneTo(w: World, i: nat, pid: int, k: nat)
    requires Inv(w) && i < |w.svcs| && k < |w.svcs| && pid > 0 && Alone(w.svcs, i, pid)
    ensures To(GroupKill(w.svcs[k]) + LoggerKill(w.svcs[k]), pid)
         == if k == i && Proc(w.svcs[i], Logger) == pid then [Signal(pid, SIGKILL, false)] else []
  {
    hide Inv, Held;
    var s := w.svcs[k];
    AloneElsewhere(w, i, pid, k, Main);
    ToNone(GroupKill(s), pid);
    ToConcat(GroupKill(s), LoggerKill(s), pid);
    if k != i {
      AloneElsewhere(w, i, pid, k, Logger);
      ToNone(LoggerKill(s), pid);
    }
  }

  /** Killing what is left sends one SIGKILL to the logger if it is still there, and nothing otherwise. */
  lemma {:induction false} KillsTo(w: World, i: nat, pid: int, n: nat)
    requires Inv(w) && i < |w.svcs| && pid > 0 && Alone(w.svcs, i, pid)
    requires n <= |w.svcs| && LegalRun(w, KillSteps(w.svcs[..n]))
    ensures var u := Run(w, KillSteps(w.svcs[..n]));
            && u.svcs == w.svcs
            && To(u.sent, pid) == To(w.sent, pid)
                 + if i < n && Proc(w.svcs[i], Logger) == pid then [Signal(pid, SIGKILL, false)] else []
  {
    hide Inv, Alone, Legal, Step, LegalRun, Run, To, KillSteps, KillOne, GroupKill, LoggerKill;
    if n == 0 {
      NoKillSteps(w.svcs);
      EmptyRun(w);
    } else {
      KillsMore(w.svcs, n);
      RunSplit(w, KillSteps(w.svcs[..n - 1]), KillOne(w.svcs[n - 1], n - 1));
      KillsTo(w, i, pid, n - 1);
      var u := Run(w, KillSteps(w.svcs[..n - 1]));
      KillOneRun(u, n - 1);
      KillOneTo(w, i, pid, n - 1);
      ToConcat(u.sent, GroupKill(w.svcs[n - 1]) + LoggerKill(w.svcs[n - 1]), pid);
    }
  }

  // ---------------------------------------------------------------- the phase

  lemma {:induction false} HaltSpares(svcs: seq<Service>, xs: seq<nat>, i: nat)
    requires (forall k :: 0 <= k < |xs| ==> xs[k] < |svcs|) && i !in xs
    ensures AllSpare(HaltSteps(svcs, xs), i)
  {
    if xs != [] {
      HaltSpares(svcs, xs[..|xs| - 1], i);
    }
  }

  lemma {:induction false} FinalSpares(svcs: seq<Service>, i: nat)
    ensures AllSpare(FinalSteps(svcs), i)
  {
    if svcs != [] {
      FinalSpares(svcs[..|svcs| - 1], i);
    }
  }

  lemma QuietSpares(es: seq<Event>, i: nat)
    requires Quiet(es)
    ensures AllSpare(es, i)
  {
  }

  lemma StoppedIsListed(svcs: seq<Service>, first: seq<nat>, rest: seq<nat>, i: nat)
    requires StopList(svcs, first, rest) && i in first + rest
    ensures Listed(svcs, i)
  {
    hide Knot, DependenciesFirst;
    assert i in Members(first) || i in Members(rest);
  }

  /** A service that is neither running nor stopping has no main process, and is not told to stop. */
  lemma UnlistedAlone(v: World, first: seq<nat>, rest: seq<nat>, i: nat)
    requires Inv(v) && StopList(v.svcs, first, rest) && i < |v.svcs| && v.svcs[i].logPid > 0 && !Listed(v.svcs, i)
    ensures v.svcs[i].active && Alone(v.svcs, i, v.svcs[i].logPid) && i !in first + rest
  {
    hide ProcLedger, FdLedger, DistinctEnds, Knot, DependenciesFirst, Held;
    assert SlotOk(v.svcs[i]);
    if i in first + rest {
      StoppedIsListed(v.svcs, first, rest, i);
    }
  }

  /**
   The logger of a service that is neither running nor stopping when the shutdown begins is not told to stop: all
   it gets is one SIGKILL, if it is still there at the first deadline.
   */
  lemma UnlistedLogger(v: World, first: seq<nat>, rest: seq<nat>, wait: seq<Event>, left: World,
                       wait2: seq<Event>, last: seq<Service>, i: nat)
    requires Inv(v) && ShutdownDone(v, first, rest, wait, left, wait2, last)
    requires LegalRun(v, ShutdownSteps(v.svcs, first + rest, wait, left.svcs, wait2, last))
    requires i < |v.svcs| && v.svcs[i].logPid > 0 && !Listed(v.svcs, i)
    ensures i < |left.svcs|
    ensures var p, u := v.svcs[i].logPid, Run(v, ShutdownSteps(v.svcs, first + rest, wait, left.svcs, wait2, last));
            To(u.sent, p) == To(v.sent, p) + if left.svcs[i].logPid > 0 then [Signal(p, SIGKILL, false)] else []
  {
    hide Inv, LegalRun, Run, HaltSteps, KillSteps, FinalSteps, Waited, StopsInOrder, Ascending, Quiet, To, Alone;
    hide AllSpare;
    var p := v.svcs[i].logPid;
    var halts, kills, ends := HaltSteps(v.svcs, first + rest), KillSteps(left.svcs), FinalSteps(last);
    var a, b, c := halts + wait, halts + wait + kills, halts + wait + kills + wait2;
    RunSplit(v, c, ends);
    RunSplit(v, b, wait2);
    RunSplit(v, a, kills);
    RunSplit(v, halts, wait);
    RunKeeps(v, halts);
    RunKeeps(v, a);
    RunKeeps(v, b);
    RunKeeps(v, c);
    UnlistedAlone(v, first, rest, i);
    HaltSpares(v.svcs, first + rest, i);
    SparedRun(v, halts, i, p);
    QuietSpares(wait, i);
    SparedRun(Run(v, halts), wait, i, p);
    NoKillSteps(left.svcs);
    KillsTo(left, i, p, |left.svcs|);
    LeftLogger(left, i, p);
    QuietSpares(wait2, i);
    SparedRun(Run(v, b), wait2, i, p);
    FinalSpares(last, i);
    SparedRun(Run(v, c), ends, i, p);
  }

  lemma LeftLogger(w: World, i: nat, pid: int)
    requires Inv(w) && i < |w.svcs| && pid > 0 && Alone(w.svcs, i, pid)
    ensures Proc(w.svcs[i], Logger) == pid <==> w.svcs[i].logPid > 0
  {
    hide ProcLedger, FdLedger;
    assert SlotOk(w.svcs[i]);
  }

  // ---------------------------------------------------------------- loggers that are told to stop

  /** What telling slot `s` to stop sends: SIGTERM to the group of the main process and to a logger not yet told. */
  function HaltSends(s: Service): seq<Signal> {
    (if s.pid > 0 then [Signal(s.pid, 15, true)] else [])
    + (if s.logPid > 0 && !s.logStopping then [Signal(s.logPid, 15, false)] else [])
  }

  /** Halting leaves processes where they are. */
  predicate SameProcs(a: seq<Service>, b: seq<Service>) {
    |a| == |b| && forall j :: 0 <= j < |a| ==> a[j].pid == b[j].pid && a[j].logPid == b[j].logPid
  }

  lemma HaltStep(u: World, e: Event)
    requires Legal(u, e) && e.Do? && (e.a == Terminate(Halt) || e.a.TerminateLogger?)
    ensures SameProcs(u.svcs, Step(u, e).svcs)
    ensures Step(u, e).sent
         == u.sent + if e.a.TerminateLogger? then [Signal(u.svcs[e.i].logPid, 15, false)]
                     else [Signal(u.svcs[e.i].pid, 15, true)]
  {
    hide Handles;
  }

  lemma HaltMaybe(u: World, k: nat, a: Action, es: seq<Event>)
    requires k < |u.svcs| && (a == Terminate(Halt) || a.TerminateLogger?)
    requires (es == [] || es == [Do(k, a)]) && LegalRun(u, es)
    ensures SameProcs(u.svcs, Run(u, es).svcs)
    ensures Run(u, es).sent
         == u.sent + if es == [] then []
                     else if a.TerminateLogger? then [Signal(u.svcs[k].logPid, 15, false)]
                     else [Signal(u.svcs[k].pid, 15, true)]
  {
    hide Step, Legal;
    if es != [] {
      assert es[..0] == [];
      HaltStep(u, Do(k, a));
    } else {
      assert u.sent + [] == u.sent;
    }
  }

  lemma HaltOneRun(u: World, s: Service, k: nat)
    requires k < |u.svcs| && LegalRun(u, HaltOne(s, k)) && u.svcs[k].pid == s.pid && u.svcs[k].logPid == s.logPid
    ensures SameProcs(u.svcs, Run(u, HaltOne(s, k)).svcs) && Run(u, HaltOne(s, k)).sent == u.sent + HaltSends(s)
  {
    hide Step, Legal, LegalRun, Run;
    var a := if s.pid > 0 then [Do(k, Terminate(Halt))] else [];
    var b := if s.logPid > 0 && !s.logStopping then [Do(k, TerminateLogger)] else [];
    RunSplit(u, a, b);
    HaltMaybe(u, k, Terminate(Halt), a);
    HaltMaybe(Run(u, a), k, TerminateLogger, b);
    var x := if s.pid > 0 then [Signal(s.pid, 15, true)] else [];
    var y := if s.logPid > 0 && !s.logStopping then [Signal(s.logPid, 15, false)] else [];
    assert u.sent + x + y == u.sent + (x + y);
  }

  /** Of the signals for slot `k`, those to the logger of slot `i`. */
  lemma HaltSendsTo(v: World, i: nat, k: nat)
    requires Inv(v) && i < |v.svcs| && k < |v.svcs| && v.svcs[i].logPid > 0 && v.svcs[k].active
    ensures var p := v.svcs[i].logPid;
            To(HaltSends(v.svcs[k]), p)
            == if k == i && !v.svcs[i].logStopping then [Signal(p, 15, false)] else []
  {
    hide FdLedger, Deaf, DistinctEnds;
    var p, s := v.svcs[i].logPid, v.svcs[k];
    assert SlotOk(v.svcs[i]) && Proc(v.svcs[i], Logger) == p;
    assert Proc(s, Main) == s.pid && Proc(s, Logger) == s.logPid;
    var x := if s.pid > 0 then [Signal(s.pid, 15, true)] else [];
    var y := if s.logPid > 0 && !s.logStopping then [Signal(s.logPid, 15, false)] else [];
    ToConcat(x, y, p);
    assert s.pid != p && (k != i ==> s.logPid != p);
    ToNone(x, p);
    if k != i {
      ToNone(y, p);
    }
  }

  lemma HaltLast(svcs: seq<Service>, xs: seq<nat>)
    requires xs != [] && forall k :: 0 <= k < |xs| ==> xs[k] < |svcs|
    ensures var ys, y := xs[..|xs| - 1], xs[|xs| - 1];
            HaltSteps(svcs, xs) == HaltSteps(svcs, ys) + HaltOne(svcs[y], y)
  {
  }

  /**
   Telling the services `xs` to stop: the logger of a service among them gets exactly one SIGTERM, unless it has been
   told before, and the logger of any other service none.
   */
  lemma {:induction false} HaltTells(v: World, xs: seq<nat>, i: nat)
    requires Inv(v) && (forall k :: 0 <= k < |xs| ==> xs[k] < |v.svcs| && v.svcs[xs[k]].active) && Distinct(xs)
    requires LegalRun(v, HaltSteps(v.svcs, xs)) && i < |v.svcs| && v.svcs[i].logPid > 0
    ensures var p, u := v.svcs[i].logPid, Run(v, HaltSteps(v.svcs, xs));
            && SameProcs(v.svcs, u.svcs)
            && To(u.sent, p) == To(v.sent, p) + if i in xs && !v.svcs[i].logStopping then [Signal(p, 15, false)] else []
    decreases |xs|
  {
    hide Inv, Legal, Step, LegalRun, Run, To, HaltSteps, HaltOne, HaltSends;
    if xs == [] {
      EmptyRun(v);
      assert HaltSteps(v.svcs, []) == [] by { NoHalts(v.svcs); }
    } else {
      var ys, y := xs[..|xs| - 1], xs[|xs| - 1];
      HaltLast(v.svcs, xs);
      RunSplit(v, HaltSteps(v.svcs, ys), HaltOne(v.svcs[y], y));
      HaltTells(v, ys, i);
      var u := Run(v, HaltSteps(v.svcs, ys));
      HaltOneRun(u, v.svcs[y], y);
      HaltSendsTo(v, i, y);
      ToConcat(u.sent, HaltSends(v.svcs[y]), v.svcs[i].logPid);
      assert xs == ys + [y];
    }
  }

  lemma NoHalts(svcs: seq<Service>)
    ensures HaltSteps(svcs, []) == []
  {
  }

  /** At the beginning of a shutdown, that is what happens to the services that are running or stopping. */
  lemma ListedLogger(v: World, first: seq<nat>, rest: seq<nat>, wait: seq<Event>, left: World,
                     wait2: seq<Event>, last: seq<Service>, i: nat)
    requires Inv(v) && ShutdownDone(v, first, rest, wait, left, wait2, last)
    requires i < |v.svcs| && v.svcs[i].logPid > 0
    ensures var p, halts := v.svcs[i].logPid, HaltSteps(v.svcs, first + rest);
            && LegalRun(v, halts)
            && To(Run(v, halts).sent, p)
               == To(v.sent, p) + if Listed(v.svcs, i) && !v.svcs[i].logStopping then [Signal(p, 15, false)] else []
  {
    hide Inv, LegalRun, Run, HaltSteps, To, Waited, Quiet;
    ListDistinct(v.svcs, first, rest);
    ListedMembers(v.svcs, first, rest);
    HaltTells(v, first + rest, i);
  }

  lemma ListedMembers(svcs: seq<Service>, first: seq<nat>, rest: seq<nat>)
    requires StopList(svcs, first, rest)
    ensures forall i: nat :: i < |svcs| ==> (i in first + rest <==> Listed(svcs, i))
    ensures forall k :: 0 <= k < |first + rest| ==> svcs[(first + rest)[k]].active
  {
    hide Knot, DependenciesFirst;
    forall i: nat | i < |svcs| ensures i in first + rest <==> Listed(svcs, i) {
      assert i in first + rest <==> i in Members(first) || i in Members(rest);
    }
    forall k | 0 <= k < |first + rest| ensures svcs[(first + rest)[k]].active {
      StoppedIsListed(svcs, first, rest, (first + rest)[k]);
    }
  }
}
