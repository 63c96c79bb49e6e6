/** Which services ever come up: a least fixpoint over the table, reached after enough start passes. */
module BringUp {
  import opened Types
  import opened Machine
  import opened Ledger
  import opened Propagation
  import opened Reaping
  import opened StopOrder
  import opened Passes

  /** Every hard dependency of slot `i` is registered, in a slot of `x`. */
  ghost predicate Supported(svcs: seq<Service>, i: nat, x: set<nat>) {
    i < |svcs| && forall d :: d in svcs[i].deps && !d.soft ==>
      var k := FindByName(svcs, d.name); k.Some? && k.value in x
  }

  /** The active slots whose hard dependencies bottom out within `k` levels. */
  ghost function Grounded(svcs: seq<Service>, k: nat): (g: set<nat>)
    ensures forall i :: i in g ==> i < |svcs| && svcs[i].active
  {
    if k == 0 then {}
    else set i: nat | i < |svcs| && svcs[i].active && Supported(svcs, i, Grounded(svcs, k - 1))
  }

  lemma SupportedMore(svcs: seq<Service>, i: nat, x: set<nat>, y: set<nat>)
    requires Supported(svcs, i, x) && x <= y
    ensures Supported(svcs, i, y)
  {
  }

  lemma {:induction false} GroundedGrows(svcs: seq<Service>, k: nat)
    ensures Grounded(svcs, k) <= Grounded(svcs, k + 1)
  {
    if k > 0 {
      GroundedGrows(svcs, k - 1);
      forall i | i in Grounded(svcs, k) ensures i in Grounded(svcs, k + 1) {
        SupportedMore(svcs, i, Grounded(svcs, k - 1), Grounded(svcs, k));
      }
    }
  }

  lemma {:induction false} GroundedStays(svcs: seq<Service>, k: nat, m: nat)
    requires k <= m && Grounded(svcs, k) == Grounded(svcs, k + 1)
    ensures Grounded(svcs, m) == Grounded(svcs, k)
    decreases m
  {
    if k < m {
      GroundedStays(svcs, k, m - 1);
      if k + 1 < m {
        assert Grounded(svcs, m) == Grounded(svcs, k + 1);
      }
    }
  }

  /** Each level adds a slot until nothing is added, so after as many levels as slots nothing is. */
  lemma {:induction false} GroundedSettles(svcs: seq<Service>, k: nat)
    ensures Grounded(svcs, k) == Grounded(svcs, k + 1) || |Grounded(svcs, k)| >= k
  {
    hide Supported;
    if k > 0 {
      GroundedSettles(svcs, k - 1);
      GroundedGrows(svcs, k - 1);
      if Grounded(svcs, k - 1) == Grounded(svcs, k) {
        GroundedStays(svcs, k - 1, k + 1);
      } else {
        var i :| i in Grounded(svcs, k) && i !in Grounded(svcs, k - 1);
        SubsetSize(Grounded(svcs, k - 1) + {i}, Grounded(svcs, k));
      }
    }
  }

  /** All the slots that can ever run while the table stays as it is. */
  ghost function Startable(svcs: seq<Service>): set<nat> {
    Grounded(svcs, |svcs|)
  }

  /** The startable slots are a fixpoint: exactly the active ones supported by startable ones. */
  lemma StartableIsFixpoint(svcs: seq<Service>)
    ensures Grounded(svcs, |svcs| + 1) == Startable(svcs)
    ensures forall i: nat :: i < |svcs| && svcs[i].active && Supported(svcs, i, Startable(svcs)) ==>
              i in Startable(svcs)
    ensures forall i :: i in Startable(svcs) ==> Supported(svcs, i, Startable(svcs))
  {
    var n := |svcs|;
    GroundedSettles(svcs, n);
    if Grounded(svcs, n) != Grounded(svcs, n + 1) {
      GroundedGrows(svcs, n);
      var i :| i in Grounded(svcs, n + 1) && i !in Grounded(svcs, n);
      SubsetSize(Grounded(svcs, n) + {i}, Grounded(svcs, n + 1));
      SetBound(Grounded(svcs, n + 1), n);
    }
  }

  ghost predicate StuckAt(svcs: seq<Service>, i: nat, u: set<nat>) {
    i < |svcs| && svcs[i].active && (NeedsMissing(svcs, i) || NeedsSome(svcs, i, u))
  }

  /** Each member of `u` hard-depends on something that is not registered or lies in `u`. */
  ghost predicate Stuck(svcs: seq<Service>, u: set<nat>) {
    forall i {:trigger StuckAt(svcs, i, u)} :: i in u ==> StuckAt(svcs, i, u)
  }

  /** The slots that are active but not startable are the greatest stuck set. */
  lemma UnstartableIsGreatest(svcs: seq<Service>, rest: set<nat>)
    requires forall i: nat :: i in rest <==> i < |svcs| && svcs[i].active && i !in Startable(svcs)
    ensures Stuck(svcs, rest)
    ensures forall u :: Stuck(svcs, u) ==> u <= rest
  {
    StartableIsFixpoint(svcs);
    forall i | i in rest ensures StuckAt(svcs, i, rest) {
      assert !Supported(svcs, i, Startable(svcs));
      var d :| && d in svcs[i].deps && !d.soft
               && !(var k := FindByName(svcs, d.name); k.Some? && k.value in Startable(svcs));
      if FindByName(svcs, d.name).Some? {
        var k := FindByName(svcs, d.name).value;
        assert k in rest && Needs(svcs, i, k);
      }
    }
    forall u | Stuck(svcs, u) ensures u <= rest {
      StuckNotGrounded(svcs, u, |svcs|);
      forall i | i in u ensures i in rest {
        assert StuckAt(svcs, i, u);
      }
    }
  }

  lemma {:induction false} StuckNotGrounded(svcs: seq<Service>, u: set<nat>, k: nat)
    requires Stuck(svcs, u)
    ensures u !! Grounded(svcs, k)
  {
    if k > 0 {
      StuckNotGrounded(svcs, u, k - 1);
      forall i | i in u ensures i !in Grounded(svcs, k) {
        assert StuckAt(svcs, i, u);
        hide StuckAt, Supported;
        StuckIsUnsupported(svcs, i, u, Grounded(svcs, k - 1));
      }
    }
  }

  lemma StuckIsUnsupported(svcs: seq<Service>, i: nat, u: set<nat>, x: set<nat>)
    requires StuckAt(svcs, i, u) && u !! x
    ensures !Supported(svcs, i, x)
  {
    if NeedsMissing(svcs, i) {
      var d :| d in svcs[i].deps && !d.soft && FindByName(svcs, d.name) == None;
    } else {
      var j :| j in u && Needs(svcs, i, j);
      var d :| d in svcs[i].deps && !d.soft && FindByName(svcs, d.name) == Some(j);
    }
  }

  /** Without unregistered hard dependencies, everything is startable exactly when nothing is on a cycle. */
  lemma AllStartableIffAcyclic(svcs: seq<Service>, active: set<nat>)
    requires forall i: nat :: i in active <==> i < |svcs| && svcs[i].active
    requires forall i :: i in active ==> !NeedsMissing(svcs, i)
    ensures Startable(svcs) == active <==> !exists c :: Cycle(svcs, active, c)
  {
    hide Needs, NeedsMissing, Grounded;
    var rest := active - Startable(svcs);
    UnstartableIsGreatest(svcs, rest);
    if Startable(svcs) != active {
      var i :| (i in active) != (i in Startable(svcs));
      assert i in rest;
      forall j | j in rest ensures NeedsSome(svcs, j, rest) {
        assert StuckAt(svcs, j, rest);
      }
      var c := KnotHasCycle(svcs, rest);
      WiderCycle(svcs, rest, active, c);
    }
    if c :| Cycle(svcs, active, c) {
      CycleIsKnot(svcs, active, c);
      assert Stuck(svcs, Members(c)) by {
        forall i | i in Members(c) ensures StuckAt(svcs, i, Members(c)) {
          assert NeedsSome(svcs, i, Members(c));
        }
      }
      var i :| i in Members(c);
      assert i in rest;
    }
  }

  lemma WiderCycle(svcs: seq<Service>, x: set<nat>, y: set<nat>, c: seq<nat>)
    requires Cycle(svcs, x, c) && x <= y
    ensures Cycle(svcs, y, c)
  {
    hide Needs;
  }

  // ---------------------------------------------------------------- what may happen between passes

  /** Every service is present, enabled, not being stopped, and either running or without a process. */
  ghost predicate Enabled(svcs: seq<Service>) {
    forall i :: 0 <= i < |svcs| && svcs[i].active ==>
      && svcs[i].present && !svcs[i].stopping && svcs[i].autoStart && !svcs[i].once
      && (svcs[i].pid <= 0 || svcs[i].state == Running)
  }

  /** The table keeps its registrations. */
  predicate SameTable(es: seq<Event>) {
    forall k :: 0 <= k < |es| ==> !(es[k].Do? && (es[k].a.Register? || es[k].a.Free?))
  }

  /** From the table `a` to the table `b` nothing has gone down or been disabled. */
  ghost predicate Undisturbed(a: seq<Service>, b: seq<Service>) {
    SameNames(a, b) && (forall i :: On(a, i) ==> On(b, i)) && (Enabled(a) ==> Enabled(b))
  }

  /** Steps that disturb nothing. */
  ghost predicate Gap(u: World, es: seq<Event>) {
    LegalRun(u, es) && SameTable(es) && Undisturbed(u.svcs, Run(u, es).svcs)
  }

  lemma UndisturbedMore(a: seq<Service>, b: seq<Service>, c: seq<Service>)
    requires Undisturbed(a, b) && Undisturbed(b, c)
    ensures Undisturbed(a, c)
  {
    hide Enabled;
  }

  lemma NoGap(u: World)
    ensures Gap(u, [])
  {
  }

  lemma GapMore(u: World, a: seq<Event>, b: seq<Event>)
    requires Gap(u, a) && Gap(Run(u, a), b)
    ensures Gap(u, a + b)
  {
    hide Step, Legal, LegalRun, Run, Undisturbed;
    RunConcat(u, a, b);
    UndisturbedMore(u.svcs, Run(u, a).svcs, Run(u, a + b).svcs);
  }

  lemma GapOne(u: World, e: Event)
    requires Legal(u, e) && SameTable([e]) && Undisturbed(u.svcs, Step(u, e).svcs)
    ensures Gap(u, [e])
  {
    hide Step, Legal, Undisturbed;
    EmptyRun(u);
    RunSnoc(u, [], e);
    assert [] + [e] == [e];
  }

  lemma UndisturbedSelf(a: seq<Service>)
    ensures Undisturbed(a, a)
  {
    hide Enabled;
  }

  /** The clock is read, output is drained, a child held by no slot is reaped, or a signal is sent. */
  predicate Calm(w: World, e: Event)
    requires Legal(w, e)
  {
    match e
    case Tick(_) => true
    case Reap(_, _, _, _, _) => Target(w, e) == None
    case Idle(_) => true
    case Script(_) => true
    case ScanOpen => false
    case Do(_, a) => a.Io? || (a.Cmd? && a.cmd.Send?)
  }

  lemma IoCalm(s: Service, c: Channel, op: StreamOp)
    ensures var t := IoAfter(s, c, op);
            && t.active == s.active && t.name == s.name && t.deps == s.deps && t.present == s.present
            && t.state == s.state
            && t.stopping == s.stopping && t.autoStart == s.autoStart && t.once == s.once && t.pid == s.pid
  {
  }

  lemma CalmSlots(w: World, e: Event)
    requires Legal(w, e) && Calm(w, e)
    ensures Undisturbed(w.svcs, Step(w, e).svcs)
  {
    hide Handles, Sends, ChildrenAfter, ClockAfter, IoAfter, AllowedIo, SlotAfter;
    if e.Do? {
      var s, t := w.svcs[e.i], SlotAfter(w.svcs[e.i], e.a);
      CalmSlot(s, e.a);
      assert Step(w, e).svcs == w.svcs[e.i := t];
    } else {
      UndisturbedSelf(w.svcs);
    }
  }

  lemma CalmSlot(s: Service, a: Action)
    requires a.Io? || (a.Cmd? && a.cmd.Send?)
    ensures var t := SlotAfter(s, a);
            && t.active == s.active && t.name == s.name && t.deps == s.deps && t.present == s.present
            && t.state == s.state
            && t.stopping == s.stopping && t.autoStart == s.autoStart && t.once == s.once && t.pid == s.pid
  {
    if a.Io? {
      IoCalm(s, a.c, a.op);
      hide IoAfter;
    }
  }

  predicate CalmRun(w: World, es: seq<Event>)
    requires LegalRun(w, es)
    decreases |es|
  {
    es == [] || (CalmRun(w, es[..|es| - 1]) && Calm(Run(w, es[..|es| - 1]), es[|es| - 1]))
  }

  /** Calm steps disturb nothing. */
  lemma {:induction false} CalmGap(w: World, es: seq<Event>)
    requires LegalRun(w, es) && CalmRun(w, es)
    ensures Gap(w, es)
    decreases |es|
  {
    hide Step, Legal, Undisturbed;
    if es == [] {
      NoGap(w);
    } else {
      var c, e := es[..|es| - 1], es[|es| - 1];
      CalmGap(w, c);
      CalmSlots(Run(w, c), e);
      GapOne(Run(w, c), e);
      GapMore(w, c, [e]);
      assert c + [e] == es;
    }
  }

  // ---------------------------------------------------------------- rounds of start passes

  /** Steps between passes, then a start pass made at loop time `t`. */
  datatype Round = Round(gap: seq<Event>, t: int, es: seq<Event>)

  function Flat(rs: seq<Round>): seq<Event> {
    if rs == [] then [] else Flat(rs[..|rs| - 1]) + (rs[|rs| - 1].gap + rs[|rs| - 1].es)
  }

  /** Every start deferred so far has come due by the loop time `t`. */
  predicate AllDue(svcs: seq<Service>, t: int) {
    forall i :: 0 <= i < |svcs| && svcs[i].active ==> svcs[i].restartAt <= t
  }

  /** What happens before the pass disturbs nothing; every deferred start has come due; no launch fails. */
  ghost predicate RoundOk(u: World, r: Round) {
    Gap(u, r.gap)
    && var v := Run(u, r.gap);
       IsPass(v, r.t, r.es) && Faultless(r.es) && AllDue(v.svcs, r.t)
  }

  /** Start passes with undisturbing steps between them. */
  ghost predicate Rounds(w: World, rs: seq<Round>)
    decreases |rs|
  {
    rs == [] ||
      (var c, r := rs[..|rs| - 1], rs[|rs| - 1];
       Rounds(w, c) && LegalRun(w, Flat(c)) && RoundOk(Run(w, Flat(c)), r))
  }

  lemma EnabledStep(w: World, e: Event)
    requires Inv(w) && Legal(w, e) && StartEvent(e) && Enabled(w.svcs)
    ensures Enabled(Step(w, e).svcs)
  {
    StartSlot(w, e);
    hide Inv, Step, Legal;
  }

  lemma {:induction false} EnabledRun(w: World, es: seq<Event>)
    requires Inv(w) && LegalRun(w, es) && StartEvents(es) && Enabled(w.svcs)
    ensures Enabled(Run(w, es).svcs)
    decreases |es|
  {
    if es != [] {
      EnabledRun(w, es[..|es| - 1]);
      RunKeeps(w, es[..|es| - 1]);
      hide Inv, Step, Legal, Enabled;
      EnabledStep(Run(w, es[..|es| - 1]), es[|es| - 1]);
    }
  }

  /** A start pass disturbs nothing either. */
  lemma PassGap(u: World, t: int, es: seq<Event>)
    requires Inv(u) && IsPass(u, t, es)
    ensures Gap(u, es) && StartEvents(es)
  {
    hide Step, Legal, LegalRun, Run, Inv, Enabled, Picks, SameNames, On, Closed;
    PicksAreStarts(u.svcs, t, |u.svcs|, es);
    StartsKeep(u, es);
    if Enabled(u.svcs) {
      EnabledRun(u, es);
    }
    StartsSameTable(es);
  }

  lemma StartsSameTable(es: seq<Event>)
    requires StartEvents(es)
    ensures SameTable(es)
  {
  }

  lemma RoundGap(u: World, r: Round)
    requires Inv(u) && RoundOk(u, r)
    ensures Gap(u, r.gap + r.es)
  {
    hide Step, Legal, LegalRun, Run, Inv, Undisturbed, Picks;
    GapRun(u, r.gap);
    RunKeeps(u, r.gap);
    PassGap(Run(u, r.gap), r.t, r.es);
    GapMore(u, r.gap, r.es);
  }

  lemma GapRun(u: World, es: seq<Event>)
    requires Gap(u, es)
    ensures LegalRun(u, es) && SameTable(es) && Undisturbed(u.svcs, Run(u, es).svcs)
  {
  }

  lemma {:induction false} RoundsRun(w: World, rs: seq<Round>)
    requires Inv(w) && Rounds(w, rs)
    ensures Gap(w, Flat(rs)) && Inv(Run(w, Flat(rs)))
    decreases |rs|
  {
    hide Step, Legal, LegalRun, Run, Inv, Undisturbed, RoundOk;
    if rs == [] {
      NoGap(w);
    } else {
      var c, r := rs[..|rs| - 1], rs[|rs| - 1];
      RoundsRun(w, c);
      RoundGap(Run(w, Flat(c)), r);
      GapMore(w, Flat(c), r.gap + r.es);
    }
    RunKeeps(w, Flat(rs));
  }

  lemma GroundedNames(a: seq<Service>, b: seq<Service>, k: nat)
    requires SameNames(a, b)
    ensures Grounded(a, k) == Grounded(b, k)
  {
    if k > 0 {
      GroundedNames(a, b, k - 1);
      var g := Grounded(a, k - 1);
      forall i: nat | i < |a| ensures Supported(a, i, g) <==> Supported(b, i, g) {
        forall d | d in a[i].deps ensures FindByName(a, d.name) == FindByName(b, d.name) {
          FindByNameSame(a, b, d.name);
        }
      }
    }
  }

  lemma SupportedUp(svcs: seq<Service>, i: nat, x: set<nat>)
    requires Supported(svcs, i, x) && forall k :: k in x ==> On(svcs, k)
    ensures DepsSatisfied(svcs[i], svcs)
  {
  }

  /** One more pass brings up one more level. */
  lemma NextLevel(u: World, t: int, es: seq<Event>, k: nat, i: nat)
    requires Inv(u) && Enabled(u.svcs) && IsPass(u, t, es) && Faultless(es) && AllDue(u.svcs, t)
    requires (forall j :: j in Grounded(u.svcs, k) ==> On(u.svcs, j)) && i in Grounded(u.svcs, k + 1)
    ensures On(Run(u, es).svcs, i)
  {
    PicksAreStarts(u.svcs, t, |u.svcs|, es);
    StartsKeep(u, es);
    if !On(u.svcs, i) {
      SupportedUp(u.svcs, i, Grounded(u.svcs, k));
      assert Due(u.svcs[i], t);
      PassStarts(u, t, |u.svcs|, es, i);
    }
  }

  /** The services of level `k` run in the world `v`, whose names are those of the table `a`. */
  ghost predicate LevelUp(a: seq<Service>, v: World, k: nat) {
    forall i :: i in Grounded(a, k) ==> On(v.svcs, i)
  }

  lemma LevelKept(a: seq<Service>, v: World, es: seq<Event>, k: nat)
    requires LevelUp(a, v, k) && Gap(v, es)
    ensures LevelUp(a, Run(v, es), k)
  {
    hide Step, Legal, LegalRun, Run, Enabled, Grounded;
  }

  /** A round brings up one more level. */
  lemma LevelByLevel(a: seq<Service>, u: World, r: Round, k: nat)
    requires Inv(u) && Enabled(u.svcs) && SameNames(a, u.svcs) && RoundOk(u, r) && LevelUp(a, u, k)
    ensures Gap(u, r.gap + r.es) && LevelUp(a, Run(u, r.gap + r.es), k + 1)
  {
    hide Step, Legal, LegalRun, Run, Inv, Enabled, Grounded, Picks, AllDue;
    var v := Run(u, r.gap);
    RunKeeps(u, r.gap);
    LevelKept(a, u, r.gap, k);
    RoundGap(u, r);
    RunSplit(u, r.gap, r.es);
    GroundedNames(a, v.svcs, k);
    GroundedNames(a, v.svcs, k + 1);
    forall i | i in Grounded(a, k + 1) ensures On(Run(v, r.es).svcs, i) {
      NextLevel(v, r.t, r.es, k, i);
    }
  }

  /**
   After `k` passes every service whose dependencies bottom out within `k` levels is running, whatever
   undisturbing steps there are between the passes.
   */
  lemma {:induction false} RoundsBringUp(w: World, rs: seq<Round>)
    requires Inv(w) && Enabled(w.svcs) && Rounds(w, rs)
    ensures LegalRun(w, Flat(rs))
    ensures forall i :: i in Grounded(w.svcs, |rs|) ==> On(Run(w, Flat(rs)).svcs, i)
    decreases |rs|
  {
    hide Step, Legal, LegalRun, Run, Inv, Enabled, RoundOk;
    RoundsRun(w, rs);
    if rs != [] {
      var c, r := rs[..|rs| - 1], rs[|rs| - 1];
      RoundsBringUp(w, c);
      RoundsRun(w, c);
      hide Grounded;
      LevelByLevel(w.svcs, Run(w, Flat(c)), r, |c|);
      RunConcat(w, Flat(c), r.gap + r.es);
    }
  }

  // ---------------------------------------------------------------- nothing else starts

  /** In any step that keeps the registrations, a service comes up only with its dependencies running. */
  lemma OnlyLaunchesStart(w: World, e: Event)
    requires Inv(w) && Legal(w, e) && !(e.Do? && (e.a.Register? || e.a.Free?))
    ensures SameNames(w.svcs, Step(w, e).svcs)
    ensures forall i :: On(Step(w, e).svcs, i) && !On(w.svcs, i) ==> DepsSatisfied(w.svcs[i], w.svcs)
  {
    forall i | 0 <= i < |w.svcs|
      ensures var s, s' := w.svcs[i], Step(w, e).svcs[i];
              && s'.active == s.active && s'.name == s.name && s'.deps == s.deps
              && (s'.state == Running && s.state != Running ==> DepsSatisfied(s, w.svcs))
    {
      StepSlot(w, e, i);
    }
  }

  lemma CommandStates(s: Service, c: Command)
    ensures var s' := CommandAfter(s, c);
            && s'.name == s.name && s'.deps == s.deps && s'.active == s.active
            && (s'.state == s.state || s'.state == Stopping)
  {
    match c
    case GoDown =>
    case _ =>
  }

  lemma IoStates(s: Service, c: Channel, op: StreamOp)
    ensures var s' := IoAfter(s, c, op);
            s'.name == s.name && s'.deps == s.deps && s'.active == s.active && s'.state == s.state
  {
  }

  lemma LaunchStates(s: Service, t: int, o: Launched)
    ensures var s' := AfterLaunch(s, t, o); s'.name == s.name && s'.deps == s.deps && s'.active == s.active
  {
  }

  lemma ActionStates(s: Service, a: Action)
    requires !a.Register? && !a.Free?
    ensures var s' := SlotAfter(s, a);
            && s'.name == s.name && s'.deps == s.deps && s'.active == s.active
            && (!a.Launch? ==> s'.state == s.state || s'.state == Stopping || s'.state == Down)
  {
    hide CommandAfter, IoAfter, AfterLaunch;
    if a.Launch? {
      LaunchStates(s, Seconds(a.at), a.o);
    } else if a.Cmd? {
      CommandStates(s, a.cmd);
    } else if a.Io? {
      IoStates(s, a.c, a.op);
    } else {
      PlainStates(s, a);
    }
  }

  lemma StoppedStates(s: Service)
    ensures var t := Stopped(s); t.name == s.name && t.deps == s.deps && t.active == s.active && t.state == Stopping
  {
  }

  lemma LoggerStoppedStates(s: Service)
    ensures var t := LoggerStopped(s);
            t.name == s.name && t.deps == s.deps && t.active == s.active && t.state == s.state
  {
  }

  lemma FinalStates(s: Service)
    ensures var t := Finalized(s); t.name == s.name && t.deps == s.deps && t.active == s.active && t.state == Down
  {
  }

  lemma PlainStates(s: Service, a: Action)
    requires !a.Register? && !a.Free? && !a.Launch? && !a.Cmd? && !a.Io?
    ensures var s' := SlotAfter(s, a);
            && s'.name == s.name && s'.deps == s.deps && s'.active == s.active
            && (s'.state == s.state || s'.state == Stopping || s'.state == Down)
  {
    hide CommandAfter, IoAfter, AfterLaunch, Registered, Finalized, LoggerStopped, Stopped;
    match a
    case Terminate(_) => StoppedStates(s);
    case TerminateLogger => LoggerStoppedStates(s);
    case Defer(_, _) =>
    case ScanSeen =>
    case KillMain =>
    case KillLogger =>
    case Finalize => FinalStates(s);
  }

  lemma StepSlot(w: World, e: Event, i: nat)
    requires Inv(w) && Legal(w, e) && !(e.Do? && (e.a.Register? || e.a.Free?)) && i < |w.svcs|
    ensures var s, s' := w.svcs[i], Step(w, e).svcs[i];
            && s'.active == s.active && s'.name == s.name && s'.deps == s.deps
            && (s'.state == Running && s.state != Running ==> DepsSatisfied(s, w.svcs))
  {
    hide ProcLedger, FdLedger, Handles, SlotAfter, AfterExit, ChildrenAfter, ClockAfter, Sends, DepsSatisfied;
    hide LegalLaunch;
    if e.Do? && e.i == i {
      ActionStates(w.svcs[i], e.a);
    } else if e.Reap? && Target(w, e).Some? && Target(w, e).value.0 == i {
      ExitStates(w.svcs[i], e.status, Seconds(e.at));
    }
  }

  lemma OnlyStartableStep(a: seq<Service>, u: World, e: Event)
    requires Inv(u) && Legal(u, e) && !(e.Do? && (e.a.Register? || e.a.Free?))
    requires SameNames(a, u.svcs) && forall i :: On(u.svcs, i) ==> i in Startable(a)
    ensures SameNames(a, Step(u, e).svcs) && forall i :: On(Step(u, e).svcs, i) ==> i in Startable(a)
  {
    hide Step, Legal, Startable, DepsSatisfied, ProcLedger, FdLedger;
    OnlyLaunchesStart(u, e);
    StepKeeps(u, e);
    StartableNames(a, u.svcs);
    forall i: nat | On(Step(u, e).svcs, i) ensures i in Startable(a) {
      assert SlotOk(Step(u, e).svcs[i]);
      if !On(u.svcs, i) {
        UpIsStartable(u, i);
      }
    }
  }

  /** Whatever happens, commands and exits included, only startable services are ever running. */
  lemma {:induction false} OnlyStartableRun(w: World, es: seq<Event>)
    requires Inv(w) && LegalRun(w, es) && SameTable(es)
    requires forall i :: On(w.svcs, i) ==> i in Startable(w.svcs)
    ensures SameNames(w.svcs, Run(w, es).svcs)
    ensures forall i :: On(Run(w, es).svcs, i) ==> i in Startable(w.svcs)
    decreases |es|
  {
    if es != [] {
      hide Step, Legal, Inv, Startable, SameNames, On;
      var c := es[..|es| - 1];
      OnlyStartableRun(w, c);
      RunKeeps(w, c);
      OnlyStartableStep(w.svcs, Run(w, c), es[|es| - 1]);
    }
  }

  lemma StartableNames(a: seq<Service>, b: seq<Service>)
    requires SameNames(a, b)
    ensures Startable(a) == Startable(b)
  {
    GroundedNames(a, b, |a|);
  }

  lemma UpIsStartable(u: World, i: nat)
    requires i < |u.svcs| && u.svcs[i].active && DepsSatisfied(u.svcs[i], u.svcs)
    requires forall j :: On(u.svcs, j) ==> j in Startable(u.svcs)
    ensures i in Startable(u.svcs)
  {
    StartableIsFixpoint(u.svcs);
    forall d | d in u.svcs[i].deps && !d.soft
      ensures var k := FindByName(u.svcs, d.name); k.Some? && k.value in Startable(u.svcs)
    {
      assert Up(u.svcs, d);
      assert On(u.svcs, FindByName(u.svcs, d.name).value);
    }
    assert Supported(u.svcs, i, Startable(u.svcs));
  }

  /** From a table with nothing running, as many passes as slots bring up exactly the startable services. */
  lemma BringUpExact(w: World, rs: seq<Round>)
    requires Inv(w) && Enabled(w.svcs) && Rounds(w, rs) && |rs| >= |w.svcs|
    requires forall i :: !On(w.svcs, i)
    ensures LegalRun(w, Flat(rs))
    ensures forall i :: On(Run(w, Flat(rs)).svcs, i) <==> i in Startable(w.svcs)
  {
    hide Step, Legal, Inv, Enabled, Rounds, Grounded, LegalRun, Run;
    RoundsBringUp(w, rs);
    RoundsRun(w, rs);
    StartableIsFixpoint(w.svcs);
    GroundedStays(w.svcs, |w.svcs|, |rs|);
    OnlyStartableRun(w, Flat(rs));
  }
}
