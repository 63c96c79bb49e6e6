/**
 Shutdown: every service is told to stop, dependencies first; what does not end in time is killed; then
 every slot is given up.
 */
module Shutdown {
  import opened Types
  import opened Machine
  import opened Ledger
  import opened Propagation
  import opened StopOrder
  import opened Reaping
  import opened Kernels
  import opened Logs
  import opened Drains
  import opened Draining
  import opened Supervision

  // ---------------------------------------------------------------- the order

  ghost function Still(remaining: seq<bool>): set<nat> {
    set i: nat | i < |remaining| && remaining[i]
  }

  /** A service is ready once none of its hard dependencies remain. */
  method Ready(sup: Supervisor, i: nat, remaining: array<bool>) returns (ready: bool)
    requires i < sup.services.Length == remaining.Length
    ensures ready <==> !NeedsSome(sup.services[..], i, Still(remaining[..]))
  {
    ghost var svcs := sup.services[..];
    var deps := sup.services[i].deps;
    for d := 0 to |deps|
      invariant forall j :: 0 <= j < d && !deps[j].soft ==>
                  var k := FindByName(svcs, deps[j].name); k.Some? ==> k.value !in Still(remaining[..])
    {
      if !deps[d].soft {
        var k := sup.FindServiceByName(deps[d].name);
        if k.Some? && remaining[k.value] {
          assert k.value in Still(remaining[..]) && Needs(svcs, i, k.value);
          return false;
        }
      }
    }
    return true;
  }

  lemma OneMoreStill(remaining: seq<bool>, i: nat)
    requires i < |remaining| && !remaining[i]
    ensures |Still(remaining[i := true])| == |Still(remaining)| + 1
  {
    assert Still(remaining[i := true]) == Still(remaining) + {i};
    assert i !in Still(remaining);
  }

  lemma StillStanding(svcs: seq<Service>, remaining: seq<bool>)
    requires |remaining| == |svcs| && forall j: nat :: j < |svcs| ==> (remaining[j] <==> Listed(svcs, j))
    ensures Still(remaining) == StopOrder.Snapshot(svcs)
  {
  }

  /** The services still running or stopping are marked and counted. */
  method MarkStanding(sup: Supervisor) returns (remaining: array<bool>, count: nat)
    ensures fresh(remaining) && remaining.Length == sup.services.Length
    ensures Still(remaining[..]) == StopOrder.Snapshot(sup.services[..]) && count == |Still(remaining[..])|
  {
    hide Still;
    remaining := new bool[sup.services.Length](_ => false);
    count := 0;
    ghost var svcs := sup.services[..];
    assert Still(remaining[..]) == {} by { NoneStill(remaining[..]); }
    for i := 0 to sup.services.Length
      invariant forall j :: i <= j < remaining.Length ==> !remaining[j]
      invariant forall j: nat :: j < i ==> (remaining[j] <==> Listed(svcs, j))
      invariant count == |Still(remaining[..])|
    {
      var s := sup.services[i];
      if s.active && (s.state == Running || s.state == Stopping) {
        OneMoreStill(remaining[..], i);
        ghost var before := remaining[..];
        remaining[i] := true;
        assert remaining[..] == before[i := true];
        count := count + 1;
      }
    }
    StillStanding(svcs, remaining[..]);
  }

  lemma NoneStill(remaining: seq<bool>)
    requires forall j :: 0 <= j < |remaining| ==> !remaining[j]
    ensures Still(remaining) == {}
  {
  }

  /** The slots emitted so far, and what remains of the snapshot `r`. */
  ghost predicate Emitted(svcs: seq<Service>, r: set<nat>, order: seq<nat>, remaining: seq<bool>) {
    && Distinct(order) && Members(order) <= r && DependenciesFirst(svcs, r, order)
    && Still(remaining) == r - Members(order) && |remaining| == |svcs|
  }

  lemma EmitNext(svcs: seq<Service>, r: set<nat>, order: seq<nat>, remaining: seq<bool>, i: nat)
    requires Emitted(svcs, r, order, remaining) && i < |remaining| && remaining[i]
    requires !NeedsSome(svcs, i, Still(remaining))
    ensures Emitted(svcs, r, order + [i], remaining[i := false])
  {
    hide Needs;
    assert i in Still(remaining);
    EmitOne(svcs, r, order, i);
    assert Still(remaining[i := false]) == Still(remaining) - {i};
  }

  lemma EmittedRoom(svcs: seq<Service>, r: set<nat>, order: seq<nat>, remaining: seq<bool>)
    requires Emitted(svcs, r, order, remaining) && forall i :: i in r ==> i < |svcs|
    ensures |order| <= |r| <= |svcs| && (|order| == |r| ==> Still(remaining) == {})
    ensures Still(remaining) != {} ==> |order| < |r|
  {
    DistinctSize(order);
    SubsetSize(Members(order), r);
    SetBound(r, |svcs|);
    assert |r - Members(order)| == |r| - |Members(order)| by {
      assert r == (r - Members(order)) + Members(order);
    }
  }

  /** One sweep over what remains; each service that is ready is emitted. */
  method Sweep(sup: Supervisor, order: array<nat>, remaining: array<bool>, start: nat, ghost r: set<nat>)
    returns (found: bool, pos: nat)
    requires order.Length == remaining.Length == sup.services.Length && start <= order.Length
    requires Emitted(sup.services[..], r, order[..start], remaining[..]) && r == StopOrder.Snapshot(sup.services[..])
    modifies order, remaining
    ensures start <= pos <= order.Length && (found <==> pos > start)
    ensures Emitted(sup.services[..], r, order[..pos], remaining[..])
    ensures !found ==> Knot(sup.services[..], Still(remaining[..]))
  {
    hide Needs, Emitted, Still, Knot, NeedsSome;
    found, pos := false, start;
    for i := 0 to sup.services.Length
      invariant start <= pos <= order.Length && (found <==> pos > start)
      invariant Emitted(sup.services[..], r, order[..pos], remaining[..])
      invariant !found ==> forall j: nat :: j < i && remaining[j] ==>
                  NeedsSome(sup.services[..], j, Still(remaining[..]))
    {
      if remaining[i] {
        var ready := Ready(sup, i, remaining);
        if ready {
          EmittedRoomAt(sup.services[..], r, order[..pos], remaining[..], i);
          EmitNext(sup.services[..], r, order[..pos], remaining[..], i);
          ghost var left := remaining[..];
          order[pos], remaining[i] := i, false;
          assert order[..pos + 1] == order[..pos] + [i];
          assert remaining[..] == left[i := false];
          pos := pos + 1;
          found := true;
        }
      }
    }
    if !found {
      AllNeed(sup.services[..], remaining[..]);
    }
  }

  lemma EmittedRoomAt(svcs: seq<Service>, r: set<nat>, order: seq<nat>, remaining: seq<bool>, i: nat)
    requires Emitted(svcs, r, order, remaining) && r == StopOrder.Snapshot(svcs) && i < |remaining| && remaining[i]
    ensures |order| < |svcs|
  {
    assert i in Still(remaining);
    EmittedRoom(svcs, r, order, remaining);
  }

  lemma AllNeed(svcs: seq<Service>, remaining: seq<bool>)
    requires forall j: nat :: j < |remaining| && remaining[j] ==> NeedsSome(svcs, j, Still(remaining))
    ensures Knot(svcs, Still(remaining))
  {
  }

  /** The first half of `stop_all_in_order`: repeated sweeps until all is emitted or a sweep finds nothing. */
  method ComputeOrder(sup: Supervisor) returns (order: array<nat>, remaining: array<bool>, pos: nat)
    ensures fresh(order) && fresh(remaining) && order.Length == remaining.Length == sup.services.Length
    ensures pos <= order.Length
    ensures var svcs, r := sup.services[..], StopOrder.Snapshot(sup.services[..]);
            StopsInOrder(svcs, r, order[..pos]) && Still(remaining[..]) == r - Members(order[..pos])
  {
    hide Needs, Emitted, Still, Knot;
    var count;
    remaining, count := MarkStanding(sup);
    order := new nat[sup.services.Length](_ => 0);
    pos := 0;
    ghost var svcs, r := sup.services[..], StopOrder.Snapshot(sup.services[..]);
    assert Emitted(svcs, r, order[..0], remaining[..]) by {
      EmittedNone(svcs, r, remaining[..]);
      assert order[..0] == [];
    }
    while pos < count
      invariant pos <= order.Length && count == |r|
      invariant Emitted(svcs, r, order[..pos], remaining[..])
      decreases order.Length - pos
    {
      var found;
      found, pos := Sweep(sup, order, remaining, pos, r);
      if !found {
        OrderDone(svcs, r, order[..pos], remaining[..]);
        return;
      }
    }
    EmittedRoom(svcs, r, order[..pos], remaining[..]);
    OrderDone(svcs, r, order[..pos], remaining[..]);
  }

  lemma EmittedNone(svcs: seq<Service>, r: set<nat>, remaining: seq<bool>)
    requires Still(remaining) == r && |remaining| == |svcs|
    ensures Emitted(svcs, r, [], remaining)
  {
  }

  lemma OrderDone(svcs: seq<Service>, r: set<nat>, order: seq<nat>, remaining: seq<bool>)
    requires Emitted(svcs, r, order, remaining) && (Still(remaining) == {} || Knot(svcs, Still(remaining)))
    ensures StopsInOrder(svcs, r, order) && Still(remaining) == r - Members(order)
  {
  }

  // ---------------------------------------------------------------- telling everything to stop

  /** What halting slot `i`, which holds `s`, does. */
  function HaltOne(s: Service, i: nat): seq<Event> {
    (if s.pid > 0 then [Do(i, Terminate(Halt))] else [])
    + (if s.logPid > 0 && !s.logStopping then [Do(i, TerminateLogger)] else [])
  }

  function HaltSteps(svcs: seq<Service>, xs: seq<nat>): seq<Event>
    requires forall k :: 0 <= k < |xs| ==> xs[k] < |svcs|
  {
    if xs == [] then [] else HaltSteps(svcs, xs[..|xs| - 1]) + HaltOne(svcs[xs[|xs| - 1]], xs[|xs| - 1])
  }

  function Halted(s: Service): Service {
    s.(stopping := s.stopping || s.pid > 0,
       state := if s.pid > 0 then Stopping else s.state,
       logStopping := s.logStopping || s.logPid > 0)
  }

  ghost function HaltedTable(svcs: seq<Service>, xs: set<nat>): (t: seq<Service>)
    ensures |t| == |svcs|
    ensures forall i :: 0 <= i < |svcs| ==> t[i] == if i in xs then Halted(svcs[i]) else svcs[i]
  {
    seq(|svcs|, i requires 0 <= i < |svcs| => if i in xs then Halted(svcs[i]) else svcs[i])
  }

  /** The signals sent to whole process groups: those to main processes. */
  function Group(sigs: seq<Signal>): seq<Signal> {
    if sigs == [] then []
    else Group(sigs[..|sigs| - 1]) + if sigs[|sigs| - 1].group then [sigs[|sigs| - 1]] else []
  }

  lemma {:induction false} GroupConcat(a: seq<Signal>, b: seq<Signal>)
    ensures Group(a + b) == Group(a) + Group(b)
    decreases |b|
  {
    if b == [] {
      assert a + b == a;
    } else {
      GroupConcat(a, b[..|b| - 1]);
      assert (a + b)[..|a + b| - 1] == a + b[..|b| - 1];
    }
  }

  lemma GroupOne(a: seq<Signal>, g: Signal)
    ensures Group(a + [g]) == Group(a) + if g.group then [g] else []
  {
    assert (a + [g])[..|a|] == a;
  }

  /** One SIGTERM to the group of each main process among the slots `xs`, in order. */
  function GroupTerms(svcs: seq<Service>, xs: seq<nat>): seq<Signal>
    requires forall k :: 0 <= k < |xs| ==> xs[k] < |svcs|
  {
    if xs == [] then [] else GroupTerms(svcs, xs[..|xs| - 1]) + TermMain(svcs[xs[|xs| - 1]])
  }

  /** Since the table was `t` and `g` had been signalled, exactly the slots `xs` have been halted, each once. */
  ghost predicate OnlyHalted(sup: Supervisor, t: seq<Service>, g: seq<Signal>, xs: seq<nat>)
    reads sup.services, sup.kernel`sent
  {
    && |t| == sup.services.Length && Distinct(xs) && (forall k :: 0 <= k < |xs| ==> xs[k] < |t| && t[xs[k]].active)
    && sup.services[..] == HaltedTable(t, Members(xs))
    && Group(sup.kernel.sent) == g + GroupTerms(t, xs)
  }

  method HaltSlot(sup: Supervisor, i: nat, ghost w: World, ghost h: seq<Event>, ghost es: seq<Event>)
    requires sup.Did(w, h, es) && i < sup.services.Length && sup.services[i].active
    modifies sup.services, sup.kernel`sent, sup`history
    ensures sup.Did(w, h, es + HaltOne(old(sup.services[i]), i))
    ensures sup.services[..] == old(sup.services[..])[i := Halted(old(sup.services[i]))]
    ensures Group(sup.kernel.sent) == old(Group(sup.kernel.sent)) + TermMain(old(sup.services[i]))
  {
    hide Supervisor.Did, Group;
    var s := sup.services[i];
    ghost var did := es;
    assert es + [] == es;
    if s.active && s.pid > 0 {
      GroupOne(sup.kernel.sent, Signal(s.pid, SIGTERM, true));
      sup.Terminate(i, Halt, w, h, did);
      did := did + [Do(i, Terminate(Halt))];
    }
    if s.logPid > 0 && !s.logStopping {
      GroupOne(sup.kernel.sent, Signal(s.logPid, SIGTERM, false));
      sup.TerminateLogger(i, w, h, did);
      did := did + [Do(i, TerminateLogger)];
    }
    assert did == es + HaltOne(s, i);
  }

  method HaltNext(sup: Supervisor, i: nat, ghost w: World, ghost h: seq<Event>, ghost es: seq<Event>,
                  ghost t: seq<Service>, ghost g: seq<Signal>, ghost xs: seq<nat>)
    requires OnlyHalted(sup, t, g, xs) && sup.Did(w, h, es + HaltSteps(t, xs))
    requires i < sup.services.Length && sup.services[i].active && i !in xs
    modifies sup.services, sup.kernel`sent, sup`history
    ensures OnlyHalted(sup, t, g, xs + [i]) && sup.Did(w, h, es + HaltSteps(t, xs + [i]))
  {
    hide Supervisor.Did, Halted, HaltOne, Group, HaltSteps, GroupTerms, HaltedTable;
    assert i !in Members(xs);
    HaltedMore(t, Members(xs), i);
    HaltMore(t, xs, i);
    HaltSlot(sup, i, w, h, es + HaltSteps(t, xs));
    assert es + HaltSteps(t, xs) + HaltOne(t[i], i) == es + (HaltSteps(t, xs) + HaltOne(t[i], i));
    assert Members(xs + [i]) == Members(xs) + {i};
    assert g + GroupTerms(t, xs) + TermMain(t[i]) == g + (GroupTerms(t, xs) + TermMain(t[i]));
  }

  lemma HaltedMore(t: seq<Service>, gone: set<nat>, i: nat)
    requires i < |t| && i !in gone
    ensures HaltedTable(t, gone)[i] == t[i]
    ensures HaltedTable(t, gone)[i := Halted(t[i])] == HaltedTable(t, gone + {i})
  {
  }

  lemma HaltMore(t: seq<Service>, xs: seq<nat>, i: nat)
    requires i < |t| && forall k :: 0 <= k < |xs| ==> xs[k] < |t|
    ensures HaltSteps(t, xs + [i]) == HaltSteps(t, xs) + HaltOne(t[i], i)
    ensures GroupTerms(t, xs + [i]) == GroupTerms(t, xs) + TermMain(t[i])
  {
    assert (xs + [i])[..|xs|] == xs;
  }

  /** The list in increasing order of the members of a set. */
  predicate Ascending(xs: seq<nat>) {
    forall j, k :: 0 <= j < k < |xs| ==> xs[j] < xs[k]
  }

  /** What `stop_all_in_order` goes through: a good order, then whatever it could not order. */
  ghost predicate StopList(svcs: seq<Service>, order: seq<nat>, rest: seq<nat>) {
    && StopsInOrder(svcs, StopOrder.Snapshot(svcs), order)
    && Ascending(rest) && Members(rest) == StopOrder.Snapshot(svcs) - Members(order)
    && forall k :: 0 <= k < |order + rest| ==> (order + rest)[k] < |svcs|
  }

  method HaltOrdered(sup: Supervisor, order: seq<nat>, ghost w: World, ghost h: seq<Event>, ghost es: seq<Event>)
    requires sup.Did(w, h, es) && Distinct(order)
    requires forall k :: 0 <= k < |order| ==> order[k] < sup.services.Length && sup.services[order[k]].active
    modifies sup.services, sup.kernel`sent, sup`history
    ensures OnlyHalted(sup, old(sup.services[..]), old(Group(sup.kernel.sent)), order)
    ensures sup.Did(w, h, es + HaltSteps(old(sup.services[..]), order))
  {
    hide Supervisor.Did, Group, HaltSteps, GroupTerms, HaltedTable, OnlyHalted;
    ghost var t, g := sup.services[..], Group(sup.kernel.sent);
    NoneHalted(sup);
    assert es + [] == es;
    for p := 0 to |order|
      invariant OnlyHalted(sup, t, g, order[..p])
      invariant sup.Did(w, h, es + HaltSteps(t, order[..p]))
    {
      StillThere(sup, t, g, order[..p], order[p]);
      if sup.services[order[p]].active {
        HaltNext(sup, order[p], w, h, es, t, g, order[..p]);
      }
      assert order[..p + 1] == order[..p] + [order[p]];
    }
    assert order[..|order|] == order;
  }

  lemma NoneHalted(sup: Supervisor)
    ensures OnlyHalted(sup, sup.services[..], Group(sup.kernel.sent), [])
    ensures HaltSteps(sup.services[..], []) == []
  {
    assert HaltedTable(sup.services[..], Members([])) == sup.services[..];
  }

  lemma StillThere(sup: Supervisor, t: seq<Service>, g: seq<Signal>, xs: seq<nat>, i: nat)
    requires OnlyHalted(sup, t, g, xs) && i < |t|
    ensures |t| == sup.services.Length && sup.services[i].active == t[i].active
  {
  }

  /**
   `stop_all_in_order`: dependencies are told to stop before their dependents; the services on or behind a
   cycle come last, in slot order. Every main process gets one SIGTERM.
   */
  method StopAllInOrder(sup: Supervisor, ghost w: World, ghost h: seq<Event>, ghost es: seq<Event>)
    returns (ghost first: seq<nat>, ghost rest: seq<nat>)
    requires sup.Did(w, h, es)
    modifies sup.services, sup.kernel`sent, sup`history
    ensures StopList(old(sup.services[..]), first, rest)
    ensures OnlyHalted(sup, old(sup.services[..]), old(Group(sup.kernel.sent)), first + rest)
    ensures sup.Did(w, h, es + HaltSteps(old(sup.services[..]), first + rest))
  {
    hide Supervisor.Did, Group, HaltSteps, GroupTerms, HaltedTable, OnlyHalted, Knot, DependenciesFirst;
    ghost var t, g := sup.services[..], Group(sup.kernel.sent);
    var order, remaining, pos := ComputeOrder(sup);
    first, rest := order[..pos], [];
    ghost var left := Still(remaining[..]);
    forall k | 0 <= k < pos ensures first[k] < |t| && t[first[k]].active {
      assert first[k] in Members(first);
    }
    HaltOrdered(sup, order[..pos], w, h, es);
    assert first + [] == first;
    for i := 0 to sup.services.Length
      invariant Ascending(rest) && (forall k :: 0 <= k < |rest| ==> rest[k] < i) && Still(remaining[..]) == left
      invariant OnlyHalted(sup, t, g, first + rest) && sup.Did(w, h, es + HaltSteps(t, first + rest))
      invariant forall j: nat :: j in Members(rest) <==> j < i && j in left
    {
      StillThere(sup, t, g, first + rest, i);
      if remaining[i] && sup.services[i].active {
        assert i in left && i !in Members(first) && i !in Members(rest);
        HaltNext(sup, i, w, h, es, t, g, first + rest);
        assert first + rest + [i] == first + (rest + [i]);
        assert Members(rest + [i]) == Members(rest) + {i};
        rest := rest + [i];
      }
      assert i in left ==> t[i].active;
    }
    assert Members(rest) == left;
  }

  // ---------------------------------------------------------------- waiting for the end

  /** Nothing is started, stopped or killed by such an event. */
  predicate QuietEvent(e: Event) {
    e.Reap? || e.Idle? || e.Tick? || (e.Do? && e.a.Io?)
  }

  predicate Quiet(es: seq<Event>) {
    forall k :: 0 <= k < |es| ==> QuietEvent(es[k])
  }

  /** No service is running, and every live main process has been told to stop. */
  ghost predicate Winding(svcs: seq<Service>) {
    forall i :: 0 <= i < |svcs| ==> svcs[i].state != Running && (svcs[i].pid > 0 ==> svcs[i].stopping)
  }

  predicate NoMore(s: Service, t: Service) {
    && t.active == s.active
    && (t.pid == s.pid || (s.active && t.pid <= 0))
    && (t.logPid == s.logPid || (s.active && t.logPid <= 0))
  }

  /** From `a` to `b` processes have only ended. */
  ghost predicate Shrunk(a: seq<Service>, b: seq<Service>) {
    |a| == |b| && forall i :: 0 <= i < |a| ==> NoMore(a[i], b[i])
  }

  lemma ShrunkMore(a: seq<Service>, b: seq<Service>, c: seq<Service>)
    requires Shrunk(a, b) && Shrunk(b, c)
    ensures Shrunk(a, c)
  {
    forall i | 0 <= i < |a| ensures NoMore(a[i], c[i]) {
      assert NoMore(a[i], b[i]) && NoMore(b[i], c[i]);
    }
  }

  lemma QuietIo(s: Service, c: Channel, op: StreamOp)
    ensures var t := IoAfter(s, c, op);
            NoMore(s, t) && t.state == s.state && t.stopping == s.stopping && t.pid == s.pid
  {
  }

  lemma QuietReap(s: Service, status: int, t: int)
    requires s.active
    ensures NoMore(s, AfterExit(s, status, t)) && AfterExit(s, status, t).state != Running
    ensures AfterExit(s, status, t).pid <= 0
    ensures NoMore(s, AfterLoggerExit(s)) && AfterLoggerExit(s).state == s.state
    ensures AfterLoggerExit(s).pid == s.pid && AfterLoggerExit(s).stopping == s.stopping
  {
  }

  lemma QuietSlots(w: World, e: Event)
    requires Legal(w, e) && QuietEvent(e) && Winding(w.svcs)
    ensures Winding(Step(w, e).svcs) && Shrunk(w.svcs, Step(w, e).svcs)
  {
    hide Handles, Sends, ChildrenAfter, ClockAfter, IoAfter, AfterExit, AfterLoggerExit, AllowedIo;
    if e.Do? {
      QuietIo(w.svcs[e.i], e.a.c, e.a.op);
    } else if e.Reap? && Target(w, e).Some? {
      QuietReap(w.svcs[Target(w, e).value.0], e.status, Seconds(e.at));
    }
  }

  lemma QuietSends(w: World, e: Event)
    requires Legal(w, e) && QuietEvent(e) && Winding(w.svcs)
    ensures Group(Step(w, e).sent) == Group(w.sent) && !Unrequested(w, e) && Step(w, e).ms >= w.ms
  {
    hide Handles, SlotAfter, AfterExit, AfterLoggerExit, Winding, Group;
    GroupConcat(w.sent, Sends(w, e));
    NoneGrouped(Sends(w, e));
    WindingExit(w, e);
  }

  lemma {:induction false} NoneGrouped(sigs: seq<Signal>)
    requires forall k :: 0 <= k < |sigs| ==> !sigs[k].group
    ensures Group(sigs) == []
  {
    if sigs != [] {
      NoneGrouped(sigs[..|sigs| - 1]);
    }
  }

  lemma WindingExit(w: World, e: Event)
    requires Legal(w, e) && Winding(w.svcs)
    ensures !Unrequested(w, e)
  {
  }

  /** While the supervisor only reaps and drains, processes only end and no process group is signalled. */
  lemma {:induction false} QuietRun(w: World, es: seq<Event>)
    requires LegalRun(w, es) && Quiet(es) && Winding(w.svcs)
    ensures Winding(Run(w, es).svcs) && Shrunk(w.svcs, Run(w, es).svcs)
    ensures Group(Run(w, es).sent) == Group(w.sent) && Run(w, es).ms >= w.ms
    ensures !SomeUnrequested(w, es)
    decreases |es|
  {
    hide Step, Legal, Winding, Shrunk, Group, Unrequested;
    if es == [] {
      assert Shrunk(w.svcs, w.svcs) by { ShrunkSelf(w.svcs); }
    } else {
      var c, e := es[..|es| - 1], es[|es| - 1];
      QuietRun(w, c);
      QuietSlots(Run(w, c), e);
      QuietSends(Run(w, c), e);
      ShrunkMore(w.svcs, Run(w, c).svcs, Run(w, es).svcs);
    }
  }

  lemma ShrunkSelf(a: seq<Service>)
    ensures Shrunk(a, a)
  {
  }

  /** Since `t` with `g` signalled, processes have only ended and no process group has been signalled. */
  ghost predicate Waned(sup: Supervisor, t: seq<Service>, g: seq<Signal>)
    reads sup.services, sup.kernel`sent
  {
    Winding(sup.services[..]) && Shrunk(t, sup.services[..]) && Group(sup.kernel.sent) == g
  }

  lemma WindingHasLoggers(t: seq<Service>)
    requires Winding(t)
    ensures NoneLacksLogger(t)
  {
  }

  lemma ReapsAreQuiet(es: seq<Event>, idle: int)
    requires AllReaps(es)
    ensures Quiet(es) && Quiet(es + [Idle(idle)])
  {
  }

  /** While everything is being stopped, reaping sets nothing in motion. */
  method ReapQuietly(sup: Supervisor, ghost w: World, ghost h: seq<Event>, ghost es: seq<Event>,
                     ghost t: seq<Service>, ghost g: seq<Signal>)
    returns (ghost reaps: seq<Event>, ghost idle: int)
    requires sup.Did(w, h, es) && Waned(sup, t, g)
    modifies sup.services, sup.kernel`children, sup.kernel`answers, sup.kernel`sent, sup.kernel`ms, sup`history
    ensures sup.Did(w, h, es + (reaps + [Idle(idle)])) && Quiet(reaps + [Idle(idle)]) && Waned(sup, t, g)
    ensures AllReaps(reaps) && LegalRun(old(sup.Snapshot()), reaps + [Idle(idle)])
    ensures Run(old(sup.Snapshot()), reaps + [Idle(idle)]) == sup.Snapshot()
    ensures old(sup.kernel.ms) <= sup.kernel.ms && Ticks(old(sup.kernel.ms), sup.kernel.ms)
  {
    hide Winding, Shrunk, Group, Inv, LegalRun, Run, AllReaps, SomeUnrequested, AllDoomed, AllOrphans;
    hide Taken, Refused, Asked, Logged;
    ghost var v := sup.Snapshot();
    assert sup.Did(v, h + es, []) by { sup.DidNothing(w, h, es); }
    ghost var doomed, orphans;
    reaps, idle, doomed, orphans := sup.ReapChildren(v, h + es, []);
    ReapsAreQuiet(reaps, idle);
    QuietRun(v, reaps);
    NoneMarked(Run(v, reaps).svcs);
    WindingHasLoggers(Run(v, reaps).svcs);
    NoOrphans(Run(v, reaps).svcs, orphans);
    OnlyReaps(reaps, idle);
    ghost var busy := reaps + [Idle(idle)];
    assert [] + busy == busy;
    QuietRun(v, busy);
    sup.DidMore(w, h, es, v, busy);
    ShrunkMore(t, v.svcs, sup.services[..]);
  }

  /** No active slot has a process or a pipe to be read. */
  ghost predicate NothingOpen(svcs: seq<Service>) {
    forall i :: 0 <= i < |svcs| && svcs[i].active ==>
      svcs[i].pid <= 0 && svcs[i].logPid <= 0 && svcs[i].streams.out.readFd < 0 && svcs[i].streams.err.readFd < 0
  }

  /** `any_open_services`. */
  method AnyOpenServices(sup: Supervisor) returns (open: bool)
    ensures open <==> !NothingOpen(sup.services[..])
  {
    ghost var svcs := sup.services[..];
    for i := 0 to sup.services.Length
      invariant NothingOpen(svcs[..i])
    {
      var s := sup.services[i];
      if s.active && (s.pid > 0 || s.streams.out.readFd >= 0 || s.streams.err.readFd >= 0 || s.logPid > 0) {
        assert svcs[i] == s;
        return true;
      }
      assert svcs[..i + 1] == svcs[..i] + [s];
    }
    assert svcs[..|svcs|] == svcs;
    return false;
  }

  lemma DrainedWaned(a: seq<Service>, b: seq<Service>)
    requires SameButStreams(a, b) && Winding(a)
    ensures Winding(b) && Shrunk(a, b)
  {
  }

  lemma IoIsQuiet(es: seq<Event>)
    requires OnlyIo(es)
    ensures Quiet(es)
  {
  }

  /**
   One turn of a waiting loop, from the world `u`: children are reaped until the kernel has none to wait for, all
   streams are drained, the clock is read.
   */
  ghost predicate WaitTurn(u: World, es: seq<Event>) {
    exists reaps, idle, streams, ticks ::
      && es == reaps + [Idle(idle)] + Joined(streams) + ticks
      && AllReaps(reaps) && LegalRun(u, reaps + [Idle(idle)])
      && |streams| == 2 * |u.svcs| && AllDrained(Run(u, reaps + [Idle(idle)]), streams)
      && OnlyTicks(ticks)
  }

  predicate OnlyTicks(es: seq<Event>) {
    forall k :: 0 <= k < |es| ==> es[k].Tick?
  }

  ghost predicate WaitTurns(u: World, turns: seq<seq<Event>>) {
    forall k :: 0 <= k < |turns| ==>
      LegalRun(u, Joined(turns[..k])) && WaitTurn(Run(u, Joined(turns[..k])), turns[k])
  }

  /** The steps of waiting: the clock is read, then turn follows turn. */
  ghost predicate Waited(u: World, es: seq<Event>) {
    exists at, turns ::
      es == [Tick(at)] + Joined(turns) && LegalRun(u, [Tick(at)]) && WaitTurns(Run(u, [Tick(at)]), turns)
  }

  lemma WaitTurnsMore(u: World, turns: seq<seq<Event>>, turn: seq<Event>)
    requires WaitTurns(u, turns) && LegalRun(u, Joined(turns)) && WaitTurn(Run(u, Joined(turns)), turn)
    ensures WaitTurns(u, turns + [turn]) && Joined(turns + [turn]) == Joined(turns) + turn
  {
    hide LegalRun, Run, WaitTurn, Joined;
    JoinedMore(turns, turn);
    var more := turns + [turn];
    assert more[..|turns|] == turns;
    forall k | 0 <= k < |more|
      ensures LegalRun(u, Joined(more[..k])) && WaitTurn(Run(u, Joined(more[..k])), more[k])
    {
      if k < |turns| {
        assert more[..k] == turns[..k];
      }
    }
  }

  lemma WaitTurnsFewer(u: World, turns: seq<seq<Event>>)
    requires WaitTurns(u, turns) && turns != []
    ensures WaitTurns(u, turns[..|turns| - 1])
  {
    hide LegalRun, Run, WaitTurn, Joined;
    var fewer := turns[..|turns| - 1];
    forall k | 0 <= k < |fewer|
      ensures LegalRun(u, Joined(fewer[..k])) && WaitTurn(Run(u, Joined(fewer[..k])), fewer[k])
    {
      assert fewer[..k] == turns[..k];
    }
  }

  lemma ReapsNoIo(reaps: seq<Event>, idle: int)
    requires AllReaps(reaps)
    ensures NoIo(reaps + [Idle(idle)])
  {
  }

  lemma TicksNoIo(es: seq<Event>)
    requires OnlyTicks(es)
    ensures NoIo(es)
  {
  }

  /** Waiting writes to each log what it reads for it, unless a step fails. */
  lemma WaitTurnBalanced(u: World, es: seq<Event>)
    requires Inv(u) && WaitTurn(u, es) && LegalRun(u, es)
    ensures Balanced(u, es)
  {
    hide Inv, Legal, Step, LegalRun, Run, Balanced, AllDrained, AllReaps, OnlyTicks, Joined;
    var reaps, idle, streams, ticks :|
      && es == reaps + [Idle(idle)] + Joined(streams) + ticks
      && AllReaps(reaps) && LegalRun(u, reaps + [Idle(idle)])
      && |streams| == 2 * |u.svcs| && AllDrained(Run(u, reaps + [Idle(idle)]), streams)
      && OnlyTicks(ticks);
    var busy := reaps + [Idle(idle)];
    RunSplit(u, busy + Joined(streams), ticks);
    RunSplit(u, busy, Joined(streams));
    RunKeeps(u, busy);
    ReapsNoIo(reaps, idle);
    TicksNoIo(ticks);
    NoIoBalanced(u, busy);
    AllDrainedBalanced(Run(u, busy), streams);
    BalancedConcat(u, busy, Joined(streams));
    NoIoBalanced(Run(u, busy + Joined(streams)), ticks);
    BalancedConcat(u, busy + Joined(streams), ticks);
  }

  lemma {:induction false} WaitTurnsBalanced(u: World, turns: seq<seq<Event>>)
    requires Inv(u) && WaitTurns(u, turns) && LegalRun(u, Joined(turns))
    ensures Balanced(u, Joined(turns))
    decreases |turns|
  {
    hide Inv, Legal, Step, LegalRun, Run, Balanced, WaitTurn;
    if turns == [] {
      BalancedNone(u);
    } else {
      var n := |turns| - 1;
      WaitTurnsFewer(u, turns);
      RunSplit(u, Joined(turns[..n]), turns[n]);
      WaitTurnsBalanced(u, turns[..n]);
      RunKeeps(u, Joined(turns[..n]));
      WaitTurnBalanced(Run(u, Joined(turns[..n])), turns[n]);
      BalancedConcat(u, Joined(turns[..n]), turns[n]);
    }
  }

  lemma WaitedBalanced(u: World, es: seq<Event>)
    requires Inv(u) && Waited(u, es) && LegalRun(u, es)
    ensures Balanced(u, es)
  {
    hide Inv, Legal, Step, LegalRun, Run, Balanced, WaitTurns, Joined;
    var at, turns :|
      es == [Tick(at)] + Joined(turns) && LegalRun(u, [Tick(at)]) && WaitTurns(Run(u, [Tick(at)]), turns);
    RunSplit(u, [Tick(at)], Joined(turns));
    RunKeeps(u, [Tick(at)]);
    WaitTurnsBalanced(Run(u, [Tick(at)]), turns);
    NoIoBalanced(u, [Tick(at)]);
    BalancedConcat(u, [Tick(at)], Joined(turns));
  }

  /** One turn of a waiting loop up to the clock: reap, then drain. */
  method ReapAndDrain(sup: Supervisor, ghost w: World, ghost h: seq<Event>, ghost es: seq<Event>,
                      ghost t: seq<Service>, ghost g: seq<Signal>)
    returns (ghost reaps: seq<Event>, ghost idle: int, ghost streams: seq<seq<Event>>)
    requires sup.Did(w, h, es) && Waned(sup, t, g)
    modifies sup.services, sup.kernel, sup`history
    ensures sup.Did(w, h, es + (reaps + [Idle(idle)] + Joined(streams))) && Waned(sup, t, g)
    ensures Quiet(reaps + [Idle(idle)] + Joined(streams))
    ensures AllReaps(reaps) && LegalRun(old(sup.Snapshot()), reaps + [Idle(idle)])
    ensures |streams| == 2 * sup.services.Length && AllDrained(Run(old(sup.Snapshot()), reaps + [Idle(idle)]), streams)
    ensures old(sup.kernel.ms) <= sup.kernel.ms && Ticks(old(sup.kernel.ms), sup.kernel.ms)
  {
    hide Supervisor.Did, Winding, Shrunk, Group, OnlyIo, SameButStreams, AllDrained, LegalRun, Run, AllReaps;
    hide Taken, Refused, Asked, Joined, Conserves;
    reaps, idle := ReapQuietly(sup, w, h, es, t, g);
    ghost var a, busy := sup.services[..], reaps + [Idle(idle)];
    streams := DrainAllOnce(sup, w, h, es + busy);
    IoIsQuiet(Joined(streams));
    DrainedWaned(a, sup.services[..]);
    ShrunkMore(t, a, sup.services[..]);
    assert es + busy + Joined(streams) == es + (busy + Joined(streams));
  }

  /** The latest time, in seconds, that shutting down is defined for. */
  const LATEST: int := CLOCK_MAX + 60

  lemma MakeTurn(u: World, n: nat, reaps: seq<Event>, idle: int, streams: seq<seq<Event>>, ticks: seq<Event>)
    requires AllReaps(reaps) && LegalRun(u, reaps + [Idle(idle)]) && AllDrained(Run(u, reaps + [Idle(idle)]), streams)
    requires |streams| == 2 * n && n == |u.svcs| && OnlyTicks(ticks)
    requires Quiet(reaps + [Idle(idle)] + Joined(streams))
    ensures WaitTurn(u, reaps + [Idle(idle)] + Joined(streams) + ticks)
    ensures Quiet(reaps + [Idle(idle)] + Joined(streams) + ticks)
  {
    hide AllReaps, LegalRun, Run, AllDrained, Joined;
  }

  /** The state of a waiting loop. */
  ghost predicate Waiting(v: World, turns: seq<seq<Event>>) {
    WaitTurns(v, turns) && Quiet(Joined(turns))
  }

  lemma WaitingNone(v: World)
    ensures Waiting(v, []) && Joined([]) == []
  {
  }

  lemma WaitingMore(v: World, turns: seq<seq<Event>>, turn: seq<Event>)
    requires Waiting(v, turns) && LegalRun(v, Joined(turns)) && WaitTurn(Run(v, Joined(turns)), turn) && Quiet(turn)
    ensures Waiting(v, turns + [turn]) && Joined(turns + [turn]) == Joined(turns) + turn
  {
    hide WaitTurns, LegalRun, Run, WaitTurn, Joined;
    WaitTurnsMore(v, turns, turn);
  }

  lemma WaitingFacts(v: World, turns: seq<seq<Event>>)
    requires Waiting(v, turns)
    ensures WaitTurns(v, turns) && Quiet(Joined(turns))
  {
    hide WaitTurns, Quiet;
  }

  /** A whole turn of a waiting loop; it ends early when nothing is open or the deadline has passed. */
  method WaitOnce(sup: Supervisor, deadline: int, nap: nat, ghost limit: int,
                  ghost w: World, ghost h: seq<Event>, ghost es: seq<Event>,
                  ghost t: seq<Service>, ghost g: seq<Signal>)
    returns (done: bool, ghost turn: seq<Event>)
    requires sup.Did(w, h, es) && Waned(sup, t, g)
    requires 0 < nap <= 1000 && deadline <= limit && Seconds(sup.kernel.ms) <= limit && CLOCK_MAX <= limit <= LATEST
    modifies sup.services, sup.kernel, sup`history
    ensures sup.Did(w, h, es + turn) && Waned(sup, t, g)
    ensures WaitTurn(old(sup.Snapshot()), turn) && Quiet(turn)
    ensures Seconds(sup.kernel.ms) <= limit
    ensures done ==> NothingOpen(sup.services[..]) || Seconds(sup.kernel.ms) >= deadline
    ensures !done ==> old(sup.kernel.ms) < sup.kernel.ms && old(sup.kernel.ms) < deadline * 1000
  {
    hide Supervisor.Did, Waned, Quiet, WaitTurn, AllReaps, LegalRun, Run, AllDrained, Joined;
    ghost var u := sup.Snapshot();
    ghost var reaps, idle, streams := ReapAndDrain(sup, w, h, es, t, g);
    ghost var busy, n := reaps + [Idle(idle)] + Joined(streams), sup.services.Length;
    var open := AnyOpenServices(sup);
    if !open {
      assert NothingOpen(sup.services[..]);
      MakeTurn(u, n, reaps, idle, streams, []);
      turn := busy + [];
      assert es + busy == es + turn;
      return true, turn;
    }
    var now := sup.Now(w, h, es + busy);
    ghost var ticks := [Tick(sup.kernel.ms)];
    assert es + busy + ticks == es + (busy + ticks);
    MakeTurn(u, n, reaps, idle, streams, ticks);
    turn := busy + ticks;
    if now >= deadline {
      return true, turn;
    }
    sup.Nap(nap, w, h, es + turn);
    ticks := ticks + [Tick(sup.kernel.ms)];
    assert es + turn + [Tick(sup.kernel.ms)] == es + (busy + ticks);
    MakeTurn(u, n, reaps, idle, streams, ticks);
    turn := busy + ticks;
    done := false;
  }

  /** A waiting loop of the shutdown: until nothing is open or the deadline has passed. */
  method AwaitExit(sup: Supervisor, deadline: int, nap: nat, ghost limit: int,
                   ghost w: World, ghost h: seq<Event>, ghost es: seq<Event>,
                   ghost t: seq<Service>, ghost g: seq<Signal>)
    returns (ghost turns: seq<seq<Event>>)
    requires sup.Did(w, h, es) && Waned(sup, t, g)
    requires 0 < nap <= 1000 && deadline <= limit && Seconds(sup.kernel.ms) <= limit && CLOCK_MAX <= limit <= LATEST
    modifies sup.services, sup.kernel, sup`history
    ensures sup.Did(w, h, es + Joined(turns)) && Waned(sup, t, g)
    ensures sup.kernel.answers == old(sup.kernel.answers) + Asked(Joined(turns))
    ensures WaitTurns(old(sup.Snapshot()), turns) && Quiet(Joined(turns))
    ensures Seconds(sup.kernel.ms) <= limit
    ensures NothingOpen(sup.services[..]) || Seconds(sup.kernel.ms) >= deadline
  {
    hide Supervisor.Did, Waned, Quiet, Waiting, WaitTurn, WaitTurns, LegalRun, Run, NothingOpen, Joined, Asked;
    ghost var v, was := sup.Snapshot(), sup.kernel.answers;
    sup.TracedNow(w, h, es);
    sup.DidNothing(w, h, es);
    turns := [];
    WaitingNone(v);
    var done := false;
    while !done
      invariant sup.Did(v, h + es, Joined(turns)) && Waiting(v, turns) && Waned(sup, t, g)
      invariant Seconds(sup.kernel.ms) <= limit
      invariant done ==> NothingOpen(sup.services[..]) || Seconds(sup.kernel.ms) >= deadline
      decreases !done, deadline * 1000 - sup.kernel.ms
    {
      sup.DidNothing(v, h + es, Joined(turns));
      ghost var turn;
      done, turn := WaitOnce(sup, deadline, nap, limit, v, h + es, Joined(turns), t, g);
      WaitingMore(v, turns, turn);
      turns := turns + [turn];
    }
    WaitingFacts(v, turns);
    sup.DidMore(w, h, es, v, Joined(turns));
    sup.AskedSince(w, h, es, Joined(turns), was);
  }

  /** The clock is read, then the end is awaited. */
  method Await(sup: Supervisor, span: nat, nap: nat, ghost limit: int,
               ghost w: World, ghost h: seq<Event>, ghost es: seq<Event>, ghost t: seq<Service>, ghost g: seq<Signal>)
    returns (ghost wait: seq<Event>)
    requires sup.Did(w, h, es) && Waned(sup, t, g) && 0 < nap <= 1000 && span <= 5 && CLOCK_MAX + 10 <= limit <= LATEST
    requires Seconds(sup.kernel.ms) + 10 <= limit
    modifies sup.services, sup.kernel, sup`history
    ensures sup.Did(w, h, es + wait) && Waned(sup, t, g)
    ensures Waited(old(sup.Snapshot()), wait) && Quiet(wait)
    ensures Seconds(sup.kernel.ms) <= limit
    ensures NothingOpen(sup.services[..]) || Seconds(sup.kernel.ms) >= old(Seconds(sup.kernel.ms)) + span
  {
    hide Supervisor.Did, Waned, Quiet, WaitTurns, LegalRun, Run, NothingOpen, Joined;
    ghost var v := sup.Snapshot();
    sup.DidNothing(w, h, es);
    var now := sup.Now(v, h + es, []);
    ghost var tick := [Tick(sup.kernel.ms)];
    assert [] + tick == tick;
    sup.DidNothing(v, h + es, tick);
    ghost var turns := AwaitExit(sup, now + span, nap, limit, v, h + es, tick, t, g);
    wait := tick + Joined(turns);
    QuietToo(sup.kernel.ms, tick, Joined(turns));
    assert Waited(v, wait);
    sup.DidMore(w, h, es, v, wait);
  }

  lemma QuietToo(at: int, tick: seq<Event>, es: seq<Event>)
    requires Quiet(es) && |tick| == 1 && tick[0].Tick?
    ensures Quiet(tick + es)
  {
  }

  // ---------------------------------------------------------------- killing what is left

  function KillOne(s: Service, i: nat): seq<Event> {
    (if s.active && s.pid > 0 then [Do(i, KillMain)] else [])
    + (if s.active && s.logPid > 0 then [Do(i, KillLogger)] else [])
  }

  function KillSteps(svcs: seq<Service>): seq<Event> {
    if svcs == [] then [] else KillSteps(svcs[..|svcs| - 1]) + KillOne(svcs[|svcs| - 1], |svcs| - 1)
  }

  function GroupKill(s: Service): seq<Signal> {
    if s.active && s.pid > 0 then [Signal(s.pid, SIGKILL, true)] else []
  }

  /** One SIGKILL to the group of each main process that is left, in slot order. */
  function GroupKills(svcs: seq<Service>): seq<Signal> {
    if svcs == [] then [] else GroupKills(svcs[..|svcs| - 1]) + GroupKill(svcs[|svcs| - 1])
  }

  method KillSlot(sup: Supervisor, i: nat, ghost w: World, ghost h: seq<Event>, ghost es: seq<Event>)
    requires sup.Did(w, h, es) && i < sup.services.Length
    modifies sup.kernel`sent, sup`history
    ensures sup.Did(w, h, es + KillOne(sup.services[i], i))
    ensures Group(sup.kernel.sent) == old(Group(sup.kernel.sent)) + GroupKill(sup.services[i])
  {
    hide Supervisor.Did, Group;
    var s := sup.services[i];
    ghost var did := es;
    assert es + [] == es;
    if s.active && s.pid > 0 {
      GroupOne(sup.kernel.sent, Signal(s.pid, SIGKILL, true));
      sup.KillMain(i, w, h, did);
      did := did + [Do(i, KillMain)];
    }
    if s.active && s.logPid > 0 {
      GroupOne(sup.kernel.sent, Signal(s.logPid, SIGKILL, false));
      sup.KillLogger(i, w, h, did);
      did := did + [Do(i, KillLogger)];
    }
    assert did == es + KillOne(s, i);
  }

  /** After the first deadline. */
  method KillRemaining(sup: Supervisor, ghost w: World, ghost h: seq<Event>, ghost es: seq<Event>)
    requires sup.Did(w, h, es)
    modifies sup.kernel`sent, sup`history
    ensures sup.Did(w, h, es + KillSteps(sup.services[..]))
    ensures Group(sup.kernel.sent) == old(Group(sup.kernel.sent)) + GroupKills(sup.services[..])
  {
    hide Supervisor.Did, Group, KillOne, GroupKill;
    ghost var svcs, g := sup.services[..], Group(sup.kernel.sent);
    assert es + [] == es && g + [] == g;
    for i := 0 to sup.services.Length
      invariant sup.Did(w, h, es + KillSteps(svcs[..i]))
      invariant Group(sup.kernel.sent) == g + GroupKills(svcs[..i])
    {
      KillSlot(sup, i, w, h, es + KillSteps(svcs[..i]));
      assert svcs[..i + 1][..i] == svcs[..i];
      assert es + KillSteps(svcs[..i]) + KillOne(svcs[i], i) == es + KillSteps(svcs[..i + 1]);
      assert g + GroupKills(svcs[..i]) + GroupKill(svcs[i]) == g + GroupKills(svcs[..i + 1]);
    }
    assert svcs[..|svcs|] == svcs;
  }

  // ---------------------------------------------------------------- giving up every slot

  function FinalOne(s: Service, i: nat): seq<Event> {
    if s.active then [Do(i, Finalize)] else []
  }

  function FinalSteps(svcs: seq<Service>): seq<Event> {
    if svcs == [] then [] else FinalSteps(svcs[..|svcs| - 1]) + FinalOne(svcs[|svcs| - 1], |svcs| - 1)
  }

  function FinalSlot(s: Service): Service {
    if s.active then Finalized(s) else s
  }

  lemma FinalMore(svcs: seq<Service>, i: nat)
    requires i < |svcs|
    ensures FinalSteps(svcs[..i + 1]) == FinalSteps(svcs[..i]) + FinalOne(svcs[i], i)
    ensures FinalOne(svcs[i], i) == if svcs[i].active then [Do(i, Finalize)] else []
  {
    assert svcs[..i + 1][..i] == svcs[..i];
  }

  lemma FinalNone()
    ensures FinalSteps([]) == []
  {
  }

  method FinalizeAll(sup: Supervisor, ghost w: World, ghost h: seq<Event>, ghost es: seq<Event>)
    requires sup.Did(w, h, es)
    modifies sup.services, sup.kernel`fds, sup`history
    ensures sup.Did(w, h, es + FinalSteps(old(sup.services[..])))
    ensures forall i :: 0 <= i < sup.services.Length ==> sup.services[i] == FinalSlot(old(sup.services[i]))
  {
    hide Supervisor.Did, Finalized, FinalSteps, FinalOne;
    ghost var svcs := sup.services[..];
    FinalNone();
    assert es + [] == es;
    for i := 0 to sup.services.Length
      invariant sup.Did(w, h, es + FinalSteps(svcs[..i]))
      invariant forall j :: 0 <= j < sup.services.Length ==>
                  sup.services[j] == if j < i then FinalSlot(svcs[j]) else svcs[j]
    {
      ghost var before := sup.services[..];
      FinalMore(svcs, i);
      if sup.services[i].active {
        sup.Finalize(i, w, h, es + FinalSteps(svcs[..i]));
      } else {
        assert es + FinalSteps(svcs[..i]) + [] == es + FinalSteps(svcs[..i]);
      }
      assert sup.services[..] == before[i := FinalSlot(svcs[i])];
      assert es + FinalSteps(svcs[..i]) + FinalOne(svcs[i], i) == es + FinalSteps(svcs[..i + 1]);
      assert forall j :: 0 <= j < sup.services.Length ==> sup.services[j] == sup.services[..][j];
    }
    assert svcs[..|svcs|] == svcs;
  }

  /** With every slot given up, the descriptor ledger says that no descriptor is open. */
  lemma NoneOpen(w: World, svcs: seq<Service>)
    requires Inv(w) && |w.svcs| == |svcs| && forall i :: 0 <= i < |svcs| ==> w.svcs[i] == FinalSlot(svcs[i])
    ensures w.fds == {}
  {
    hide ProcLedger, SlotOk;
    forall i | 0 <= i < |w.svcs| ensures Handles(w.svcs[i]) == {} {
      assert forall e :: Fd(w.svcs[i], e) < 0;
    }
    assert forall f :: f in w.fds ==> exists i :: 0 <= i < |w.svcs| && f in Handles(w.svcs[i]);
  }

  // ---------------------------------------------------------------- the whole phase

  /** Every slot with a process is on the list, so after halting the list nothing runs. */
  lemma HaltedWinds(svcs: seq<Service>, first: seq<nat>, rest: seq<nat>)
    requires Lifecycle(svcs) && StopList(svcs, first, rest)
    ensures Winding(HaltedTable(svcs, Members(first + rest))) && Shrunk(svcs, HaltedTable(svcs, Members(first + rest)))
  {
    hide Knot, DependenciesFirst;
    var xs := Members(first + rest);
    forall i: nat | i < |svcs| && (svcs[i].state == Running || svcs[i].pid > 0) ensures i in xs {
      assert SlotOk(svcs[i]) && Listed(svcs, i);
      assert i in Members(first) || i in Members(rest);
    }
    forall i | 0 <= i < |svcs| ensures NoMore(svcs[i], HaltedTable(svcs, xs)[i]) {
    }
  }

  predicate NothingStarted(es: seq<Event>) {
    forall k :: 0 <= k < |es| ==> !(es[k].Do? && es[k].a.Launch?)
  }

  lemma QuietStartsNothing(es: seq<Event>)
    requires Quiet(es)
    ensures NothingStarted(es)
  {
  }

  lemma {:induction false} HaltStartsNothing(svcs: seq<Service>, xs: seq<nat>)
    requires forall k :: 0 <= k < |xs| ==> xs[k] < |svcs|
    ensures NothingStarted(HaltSteps(svcs, xs))
  {
    if xs != [] {
      HaltStartsNothing(svcs, xs[..|xs| - 1]);
    }
  }

  lemma {:induction false} SweepsStartNothing(svcs: seq<Service>)
    ensures NothingStarted(KillSteps(svcs)) && NothingStarted(FinalSteps(svcs))
  {
    if svcs != [] {
      SweepsStartNothing(svcs[..|svcs| - 1]);
    }
  }

  /** The slot has been given up for good. */
  predicate GivenUp(s: Service) {
    s.active ==>
      && s.state == Down && s.logState == Down && s.pid == -1 && s.logPid == -1
      && s.streams.out.readFd == s.streams.out.logFd == s.streams.err.readFd == s.streams.err.logFd == -1
  }

  /** Up to the first deadline: everything is told to stop, then awaited for five seconds. */
  method StopAndWait(sup: Supervisor, ghost w: World, ghost h: seq<Event>, ghost es: seq<Event>)
    returns (ghost first: seq<nat>, ghost rest: seq<nat>, ghost wait: seq<Event>)
    requires sup.Did(w, h, es) && Seconds(sup.kernel.ms) <= CLOCK_MAX
    modifies sup.services, sup.kernel, sup`history
    ensures StopList(old(sup.services[..]), first, rest) && Quiet(wait)
    ensures sup.Did(w, h, es + HaltSteps(old(sup.services[..]), first + rest) + wait)
    ensures LegalRun(old(sup.Snapshot()), HaltSteps(old(sup.services[..]), first + rest))
    ensures Waited(Run(old(sup.Snapshot()), HaltSteps(old(sup.services[..]), first + rest)), wait)
    ensures Waned(sup, old(sup.services[..]),
                  old(Group(sup.kernel.sent)) + GroupTerms(old(sup.services[..]), first + rest))
    ensures Seconds(sup.kernel.ms) <= CLOCK_MAX + 10
    ensures NothingOpen(sup.services[..]) || Seconds(sup.kernel.ms) >= old(Seconds(sup.kernel.ms)) + 5
  {
    hide Supervisor.Did, Winding, Shrunk, Group, HaltSteps, GroupTerms, HaltedTable, Quiet, StopList;
    hide NothingOpen, Distinct;
    hide LegalRun, Run, Waited;
    ghost var v, t, g := sup.Snapshot(), sup.services[..], Group(sup.kernel.sent);
    sup.LifecycleNow(w, h, es);
    sup.DidNothing(w, h, es);
    first, rest := StopAllInOrder(sup, w, h, es);
    HaltedWinds(t, first, rest);
    ghost var halts := HaltSteps(t, first + rest);
    sup.DidSince(w, h, es, v, halts);
    sup.DidNothing(v, h + es, halts);
    wait := Await(sup, SHUTDOWN_TIMEOUT, 100, CLOCK_MAX + 10, w, h, es + halts, t, g + GroupTerms(t, first + rest));
  }

  /** From the first deadline on: what is left is killed and awaited for two seconds, then all slots are given up. */
  method KillAndClose(sup: Supervisor, ghost w: World, ghost h: seq<Event>, ghost es: seq<Event>,
                      ghost t: seq<Service>, ghost g: seq<Signal>)
    returns (ghost wait: seq<Event>, ghost last: seq<Service>)
    requires sup.Did(w, h, es) && Waned(sup, t, g) && Seconds(sup.kernel.ms) <= CLOCK_MAX + 10
    modifies sup.services, sup.kernel, sup`history
    ensures Quiet(wait) && Shrunk(t, last)
    ensures sup.Did(w, h, es + KillSteps(old(sup.services[..])) + wait + FinalSteps(last))
    ensures LegalRun(old(sup.Snapshot()), KillSteps(old(sup.services[..])))
    ensures Waited(Run(old(sup.Snapshot()), KillSteps(old(sup.services[..]))), wait)
    ensures LegalRun(old(sup.Snapshot()), KillSteps(old(sup.services[..])) + wait)
    ensures Run(old(sup.Snapshot()), KillSteps(old(sup.services[..])) + wait).svcs == last
    ensures Group(sup.kernel.sent) == g + GroupKills(old(sup.services[..]))
    ensures NothingOpen(last) || Seconds(sup.kernel.ms) >= old(Seconds(sup.kernel.ms)) + 2
    ensures |last| == sup.services.Length
    ensures forall i :: 0 <= i < sup.services.Length ==> sup.services[i] == FinalSlot(last[i])
    ensures sup.kernel.fds == {}
  {
    hide Supervisor.Did, Winding, Shrunk, Group, GroupKills, KillSteps, FinalSteps, FinalSlot, Quiet;
    hide LegalRun, Run, Waited;
    ghost var v, left := sup.Snapshot(), sup.services[..];
    sup.DidNothing(w, h, es);
    KillRemaining(sup, w, h, es);
    ghost var kills, g' := KillSteps(left), g + GroupKills(left);
    sup.DidSince(w, h, es, v, kills);
    sup.DidNothing(v, h + es, kills);
    wait := Await(sup, 2, 50, LATEST, w, h, es + kills, t, g');
    last := sup.services[..];
    assert es + kills + wait == es + (kills + wait);
    sup.DidSince(w, h, es, v, kills + wait);
    sup.DidNothing(v, h + es, kills + wait);
    FinalizeAll(sup, w, h, es + kills + wait);
    AllClosed(sup, w, h, es + kills + wait + FinalSteps(last), last);
  }

  lemma AllClosed(sup: Supervisor, w: World, h: seq<Event>, es: seq<Event>, last: seq<Service>)
    requires sup.Did(w, h, es) && |last| == sup.services.Length
    requires forall i :: 0 <= i < |last| ==> sup.services[i] == FinalSlot(last[i])
    ensures sup.kernel.fds == {}
  {
    hide Run, LegalRun, Inv, FinalSlot;
    NoneOpen(sup.Snapshot(), last);
  }

  /** The events of a shutdown that halts `xs` and still finds `left` at the first deadline. */
  function ShutdownSteps(t: seq<Service>, xs: seq<nat>, wait: seq<Event>, left: seq<Service>,
                         wait2: seq<Event>, last: seq<Service>): seq<Event>
    requires forall k :: 0 <= k < |xs| ==> xs[k] < |t|
  {
    HaltSteps(t, xs) + wait + KillSteps(left) + wait2 + FinalSteps(last)
  }

  lemma ShutdownStartsNothing(t: seq<Service>, xs: seq<nat>, wait: seq<Event>, left: seq<Service>,
                              wait2: seq<Event>, last: seq<Service>)
    requires (forall k :: 0 <= k < |xs| ==> xs[k] < |t|) && Quiet(wait) && Quiet(wait2)
    ensures NothingStarted(ShutdownSteps(t, xs, wait, left, wait2, last))
  {
    HaltStartsNothing(t, xs);
    QuietStartsNothing(wait);
    QuietStartsNothing(wait2);
    SweepsStartNothing(left);
    SweepsStartNothing(last);
    hide HaltSteps, KillSteps, FinalSteps, Quiet;
  }

  /**
   The phases of a shutdown from the world `v`: the slots `first` and `rest` are halted and awaited, what `left`
   still shows is killed and awaited, and the slots are given up that `last` still shows.
   */
  ghost predicate ShutdownDone(v: World, first: seq<nat>, rest: seq<nat>, wait: seq<Event>, left: World,
                               wait2: seq<Event>, last: seq<Service>) {
    && StopList(v.svcs, first, rest)
    && var halts, kills := HaltSteps(v.svcs, first + rest), KillSteps(left.svcs);
       && LegalRun(v, halts) && Waited(Run(v, halts), wait) && Quiet(wait)
       && LegalRun(v, halts + wait) && Run(v, halts + wait) == left
       && LegalRun(left, kills) && Waited(Run(left, kills), wait2) && Quiet(wait2)
       && LegalRun(left, kills + wait2) && Run(left, kills + wait2).svcs == last
  }

  lemma {:induction false} HaltNoIo(svcs: seq<Service>, xs: seq<nat>)
    requires forall k :: 0 <= k < |xs| ==> xs[k] < |svcs|
    ensures NoIo(HaltSteps(svcs, xs))
  {
    if xs != [] {
      HaltNoIo(svcs, xs[..|xs| - 1]);
    }
  }

  lemma {:induction false} SweepsNoIo(svcs: seq<Service>)
    ensures NoIo(KillSteps(svcs)) && NoIo(FinalSteps(svcs))
  {
    if svcs != [] {
      SweepsNoIo(svcs[..|svcs| - 1]);
    }
  }

  /** A shutdown writes to each log what it reads for it, unless a step fails. */
  lemma ShutdownBalanced(v: World, first: seq<nat>, rest: seq<nat>, wait: seq<Event>, left: World,
                         wait2: seq<Event>, last: seq<Service>)
    requires Inv(v) && ShutdownDone(v, first, rest, wait, left, wait2, last)
    requires LegalRun(v, ShutdownSteps(v.svcs, first + rest, wait, left.svcs, wait2, last))
    ensures Balanced(v, ShutdownSteps(v.svcs, first + rest, wait, left.svcs, wait2, last))
  {
    hide Inv, Legal, Step, LegalRun, Run, Balanced, HaltSteps, KillSteps, FinalSteps, Waited, StopsInOrder;
    hide Ascending, Quiet;
    var halts, kills, ends := HaltSteps(v.svcs, first + rest), KillSteps(left.svcs), FinalSteps(last);
    HaltNoIo(v.svcs, first + rest);
    SweepsNoIo(left.svcs);
    SweepsNoIo(last);
    var a, b, c := halts + wait, halts + wait + kills, halts + wait + kills + wait2;
    RunSplit(v, c, ends);
    RunSplit(v, b, wait2);
    RunSplit(v, a, kills);
    RunSplit(v, halts, wait);
    RunKeeps(v, halts);
    RunKeeps(v, b);
    NoIoBalanced(v, halts);
    WaitedBalanced(Run(v, halts), wait);
    BalancedConcat(v, halts, wait);
    NoIoBalanced(left, kills);
    BalancedConcat(v, a, kills);
    WaitedBalanced(Run(left, kills), wait2);
    BalancedConcat(v, b, wait2);
    NoIoBalanced(Run(v, c), ends);
    BalancedConcat(v, c, ends);
  }

  /**
   The shutdown phase. Main processes get one SIGTERM each, dependencies first; those still there at the
   first deadline, five seconds on, get one SIGKILL; nothing is started, both waits end, and every slot ends
   down with no process and no descriptor.
   */
  method ShutDown(sup: Supervisor, ghost w: World, ghost h: seq<Event>, ghost es: seq<Event>)
    returns (ghost first: seq<nat>, ghost rest: seq<nat>, ghost wait: seq<Event>, ghost left: World,
             ghost wait2: seq<Event>, ghost last: seq<Service>)
    requires sup.Did(w, h, es) && Seconds(sup.kernel.ms) <= CLOCK_MAX
    modifies sup.services, sup.kernel, sup`history
    ensures ShutdownDone(old(sup.Snapshot()), first, rest, wait, left, wait2, last)
    ensures sup.Did(w, h, es + ShutdownSteps(old(sup.services[..]), first + rest, wait, left.svcs, wait2, last))
    ensures NothingOpen(left.svcs) || Seconds(left.ms) >= old(Seconds(sup.kernel.ms)) + 5
    ensures NothingOpen(last) || Seconds(sup.kernel.ms) >= Seconds(left.ms) + 2
    ensures Shrunk(old(sup.services[..]), left.svcs) && Shrunk(old(sup.services[..]), last)
    ensures Group(sup.kernel.sent)
         == old(Group(sup.kernel.sent)) + GroupTerms(old(sup.services[..]), first + rest) + GroupKills(left.svcs)
    ensures forall i :: 0 <= i < sup.services.Length ==> GivenUp(sup.services[i])
    ensures sup.kernel.fds == {}
  {
    hide Supervisor.Did, Winding, Shrunk, Group, HaltSteps, GroupTerms, GroupKills, KillSteps, FinalSteps, Quiet;
    hide StopsInOrder, Ascending, NothingOpen, FinalSlot, GivenUp, Inv, LegalRun, Run, Waited;
    ghost var v, t, g := sup.Snapshot(), sup.services[..], Group(sup.kernel.sent);
    sup.DidNothing(w, h, es);
    first, rest, wait := StopAndWait(sup, v, h + es, []);
    ghost var g' := g + GroupTerms(t, first + rest);
    ghost var before := HaltSteps(t, first + rest) + wait;
    assert [] + HaltSteps(t, first + rest) + wait == before;
    left := sup.Snapshot();
    sup.DidNothing(v, h + es, before);
    wait2, last := KillAndClose(sup, v, h + es, before, t, g');
    sup.DidMore(w, h, es, v, ShutdownSteps(t, first + rest, wait, left.svcs, wait2, last));
    forall i | 0 <= i < sup.services.Length ensures GivenUp(sup.services[i]) {
      FinalIsGivenUp(last[i]);
    }
  }

  lemma FinalIsGivenUp(s: Service)
    ensures GivenUp(FinalSlot(s))
  {
  }

  // ---------------------------------------------------------------- who is signalled

  /** A logger that a relaunch has left to itself is told nothing by the shutdown. */
  lemma OrphanUnsignalled(v: World, first: seq<nat>, rest: seq<nat>, wait: seq<Event>, left: World,
                          wait2: seq<Event>, last: seq<Service>, pid: int)
    requires Inv(v) && ShutdownDone(v, first, rest, wait, left, wait2, last)
    requires LegalRun(v, ShutdownSteps(v.svcs, first + rest, wait, left.svcs, wait2, last))
    requires pid > 0 && pid in v.children && !Held(v.svcs, pid) && Unreaped(wait, pid) && Unreaped(wait2, pid)
    ensures var u := Run(v, ShutdownSteps(v.svcs, first + rest, wait, left.svcs, wait2, last));
            && pid in u.children && v.sent <= u.sent && forall g :: g in u.sent[|v.sent|..] ==> g.pid != pid
  {
    hide Inv, LegalRun, Run, HaltSteps, KillSteps, FinalSteps, Waited, StopsInOrder, Ascending, Quiet, Held;
    HaltUnreaped(v.svcs, first + rest, pid);
    SweepsUnreaped(left.svcs, pid);
    SweepsUnreaped(last, pid);
    UnheldUnsignalled(v, ShutdownSteps(v.svcs, first + rest, wait, left.svcs, wait2, last), pid);
  }

  lemma {:induction false} HaltUnreaped(svcs: seq<Service>, xs: seq<nat>, pid: int)
    requires forall k :: 0 <= k < |xs| ==> xs[k] < |svcs|
    ensures Unreaped(HaltSteps(svcs, xs), pid)
  {
    if xs != [] {
      HaltUnreaped(svcs, xs[..|xs| - 1], pid);
    }
  }

  lemma {:induction false} SweepsUnreaped(svcs: seq<Service>, pid: int)
    ensures Unreaped(KillSteps(svcs), pid) && Unreaped(FinalSteps(svcs), pid)
  {
    if svcs != [] {
      SweepsUnreaped(svcs[..|svcs| - 1], pid);
    }
  }

  /** No two slots hold the same main process. */
  predicate MainsApart(svcs: seq<Service>) {
    forall j, k :: 0 <= j < |svcs| && 0 <= k < |svcs| && j != k && svcs[j].pid > 0 ==> svcs[j].pid != svcs[k].pid
  }

  lemma LedgerApart(w: World)
    requires Inv(w)
    ensures MainsApart(w.svcs)
  {
    hide FdLedger;
    forall j, k | 0 <= j < |w.svcs| && 0 <= k < |w.svcs| && j != k && w.svcs[j].pid > 0
      ensures w.svcs[j].pid != w.svcs[k].pid
    {
      assert SlotOk(w.svcs[j]) && SlotOk(w.svcs[k]);
      assert Proc(w.svcs[j], Main) != Proc(w.svcs[k], Main);
    }
  }

  function Times(sigs: seq<Signal>, g: Signal): nat {
    multiset(sigs)[g]
  }

  lemma {:induction false} TermOnce(svcs: seq<Service>, xs: seq<nat>, i: nat)
    requires (forall k :: 0 <= k < |xs| ==> xs[k] < |svcs|) && Distinct(xs)
    requires MainsApart(svcs) && i < |svcs| && svcs[i].pid > 0
    ensures Times(GroupTerms(svcs, xs), Signal(svcs[i].pid, SIGTERM, true)) == if i in xs then 1 else 0
    ensures Times(GroupTerms(svcs, xs), Signal(svcs[i].pid, SIGKILL, true)) == 0
  {
    if xs != [] {
      var ys, y := xs[..|xs| - 1], xs[|xs| - 1];
      TermOnce(svcs, ys, i);
      assert xs == ys + [y];
    }
  }

  lemma {:induction false} KillOnce(svcs: seq<Service>, left: seq<Service>, i: nat, n: nat)
    requires MainsApart(svcs) && Shrunk(svcs, left) && i < |svcs| && svcs[i].active && svcs[i].pid > 0 && n <= |left|
    ensures Times(GroupKills(left[..n]), Signal(svcs[i].pid, SIGKILL, true))
         == if i < n && left[i].pid > 0 then 1 else 0
    ensures Times(GroupKills(left[..n]), Signal(svcs[i].pid, SIGTERM, true)) == 0
  {
    hide GroupKills, GroupKill, MainsApart, Shrunk, NoMore;
    if n == 0 {
      assert left[..0] == [];
      NoKills();
    } else {
      KillOnce(svcs, left, i, n - 1);
      KillsMore(left, n - 1);
      LeftOnce(svcs, left, n - 1, i);
      KillCounts(left[n - 1], svcs[i].pid);
      SumCounts(GroupKills(left[..n - 1]), GroupKill(left[n - 1]), Signal(svcs[i].pid, SIGKILL, true));
      SumCounts(GroupKills(left[..n - 1]), GroupKill(left[n - 1]), Signal(svcs[i].pid, SIGTERM, true));
    }
  }

  lemma NoKills()
    ensures GroupKills([]) == []
  {
  }

  /** What is left of the main process of slot `i` is left in slot `i`. */
  lemma LeftOnce(svcs: seq<Service>, left: seq<Service>, k: nat, i: nat)
    requires MainsApart(svcs) && Shrunk(svcs, left) && i < |svcs| && k < |left|
    requires svcs[i].active && svcs[i].pid > 0
    ensures |left| == |svcs|
    ensures left[k].active && left[k].pid == svcs[i].pid <==> k == i && left[i].pid > 0
  {
    assert NoMore(svcs[k], left[k]) && NoMore(svcs[i], left[i]);
  }

  lemma KillsMore(left: seq<Service>, n: nat)
    requires n < |left|
    ensures GroupKills(left[..n + 1]) == GroupKills(left[..n]) + GroupKill(left[n])
  {
    assert left[..n + 1][..n] == left[..n];
  }

  lemma KillCounts(s: Service, p: int)
    ensures Times(GroupKill(s), Signal(p, SIGKILL, true)) == if s.active && s.pid == p && p > 0 then 1 else 0
    ensures Times(GroupKill(s), Signal(p, SIGTERM, true)) == 0
  {
  }

  /**
   The signals a shutdown sends to process groups: each main process that was there gets exactly one SIGTERM,
   and exactly one SIGKILL if it is still there at the first deadline and none otherwise.
   */
  lemma SignalledOnce(w: World, first: seq<nat>, rest: seq<nat>, left: seq<Service>, i: nat)
    requires Inv(w) && StopList(w.svcs, first, rest) && Shrunk(w.svcs, left)
    requires i < |w.svcs| && w.svcs[i].active && w.svcs[i].pid > 0
    ensures var sent := GroupTerms(w.svcs, first + rest) + GroupKills(left);
            && Times(sent, Signal(w.svcs[i].pid, SIGTERM, true)) == 1
            && Times(sent, Signal(w.svcs[i].pid, SIGKILL, true)) == if left[i].pid > 0 then 1 else 0
  {
    hide Inv, StopList, MainsApart, Shrunk, GroupTerms, GroupKills, Distinct, Times;
    LedgerApart(w);
    LiveIsHalted(w, first, rest, i);
    TermOnce(w.svcs, first + rest, i);
    KillOnce(w.svcs, left, i, |left|);
    assert left[..|left|] == left;
    LeftLength(w.svcs, left);
    SumCounts(GroupTerms(w.svcs, first + rest), GroupKills(left), Signal(w.svcs[i].pid, SIGTERM, true));
    SumCounts(GroupTerms(w.svcs, first + rest), GroupKills(left), Signal(w.svcs[i].pid, SIGKILL, true));
  }

  lemma SumCounts(a: seq<Signal>, b: seq<Signal>, g: Signal)
    ensures Times(a + b, g) == Times(a, g) + Times(b, g)
  {
  }

  lemma LeftLength(a: seq<Service>, b: seq<Service>)
    requires Shrunk(a, b)
    ensures |a| == |b|
  {
  }

  lemma LiveIsHalted(w: World, first: seq<nat>, rest: seq<nat>, i: nat)
    requires Inv(w) && StopList(w.svcs, first, rest) && i < |w.svcs| && w.svcs[i].pid > 0
    ensures i in first + rest && Distinct(first + rest)
    ensures forall k :: 0 <= k < |first + rest| ==> (first + rest)[k] < |w.svcs|
  {
    hide ProcLedger, FdLedger, Knot, DependenciesFirst;
    assert SlotOk(w.svcs[i]) && Listed(w.svcs, i);
    assert i in Members(first) || i in Members(rest);
    ListDistinct(w.svcs, first, rest);
  }

  lemma ListDistinct(svcs: seq<Service>, first: seq<nat>, rest: seq<nat>)
    requires StopList(svcs, first, rest)
    ensures Distinct(first + rest)
  {
    hide Knot, DependenciesFirst;
    forall j, k | 0 <= j < k < |first + rest| ensures (first + rest)[j] != (first + rest)[k] {
      if j < |first| <= k {
        assert first[j] in Members(first) && rest[k - |first|] in Members(rest);
      }
    }
  }
}
