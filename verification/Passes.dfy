/**
 The start pass: one sweep over the table that launches what is due and has its dependencies running, and
 defers the rest. How far repeated sweeps get, and what no sweep can start.
 */
module Passes {
  import opened Types
  import opened Machine
  import opened Ledger
  import opened Propagation

  /** One event for each due slot below `i`, in order: a launch or a deferral at loop time `t`. */
  predicate Picks(svcs: seq<Service>, t: int, i: nat, es: seq<Event>)
    requires i <= |svcs|
  {
    if i == 0 then es == []
    else if !Due(svcs[i - 1], t) then Picks(svcs, t, i - 1, es)
    else
      && es != [] && Picks(svcs, t, i - 1, es[..|es| - 1])
      && var e := es[|es| - 1];
         e.Do? && e.i == i - 1 && ((e.a.Launch? && e.a.t == t) || (e.a.Defer? && e.a.t == t))
  }

  /** Legality makes the choice: a launch needs the dependencies running at that moment, a deferral the opposite. */
  ghost predicate IsPass(w: World, t: int, es: seq<Event>) {
    LegalRun(w, es) && Picks(w.svcs, t, |w.svcs|, es)
  }

  predicate StartEvent(e: Event) {
    e.Do? && (e.a.Launch? || e.a.Defer?)
  }

  predicate StartEvents(es: seq<Event>) {
    forall k :: 0 <= k < |es| ==> StartEvent(es[k])
  }

  predicate Faultless(es: seq<Event>) {
    forall k :: 0 <= k < |es| && es[k].Do? && es[k].a.Launch? ==> es[k].a.o.pid > 0
  }

  lemma {:induction false} PicksAreStarts(svcs: seq<Service>, t: int, i: nat, es: seq<Event>)
    requires i <= |svcs| && Picks(svcs, t, i, es)
    ensures StartEvents(es) && forall k :: 0 <= k < |es| ==> es[k].i < i
  {
    if i > 0 {
      if Due(svcs[i - 1], t) {
        PicksAreStarts(svcs, t, i - 1, es[..|es| - 1]);
      } else {
        PicksAreStarts(svcs, t, i - 1, es);
      }
    }
  }

  predicate About(es: seq<Event>, i: nat) {
    exists k :: 0 <= k < |es| && es[k].Do? && es[k].i == i
  }

  lemma AboutMore(es: seq<Event>, e: Event, i: nat)
    requires e.Do?
    ensures About(es + [e], i) <==> About(es, i) || e.i == i
  {
    var more := es + [e];
    assert more[|es|] == e;
    if k :| 0 <= k < |es| && es[k].Do? && es[k].i == i {
      assert more[k] == es[k];
    }
  }

  /**
   The service is there and not running, is not being stopped, has come to its start time, and has been asked for
   or starts by itself and not just once.
   */
  predicate ReadyToStart(s: Service, t: int) {
    && s.active && s.present && !s.stopping && s.pid <= 0 && s.restartAt <= t
    && (s.manualStart || (s.autoStart && !s.once))
  }

  /** A pass is about exactly the slots whose service is ready to start. */
  lemma {:induction false} PassIsAbout(svcs: seq<Service>, t: int, n: nat, es: seq<Event>, i: nat)
    requires n <= |svcs| && Picks(svcs, t, n, es)
    ensures About(es, i) <==> i < n && ReadyToStart(svcs[i], t)
  {
    hide About;
    if n == 0 {
      assert !About([], i) by { NotAbout(i); }
    } else if !Due(svcs[n - 1], t) {
      PassIsAbout(svcs, t, n - 1, es, i);
    } else {
      var c, e := es[..|es| - 1], es[|es| - 1];
      PassIsAbout(svcs, t, n - 1, c, i);
      assert es == c + [e];
      AboutMore(c, e, i);
    }
  }

  lemma NotAbout(i: nat)
    ensures !About([], i)
  {
  }

  // ---------------------------------------------------------------- one start

  /** What a launch or a deferral does to the slot it is about. */
  lemma StartSlot(w: World, e: Event)
    requires Inv(w) && Legal(w, e) && StartEvent(e)
    ensures var s, s' := w.svcs[e.i], Step(w, e).svcs[e.i];
            && s'.active == s.active && s'.name == s.name && s'.deps == s.deps && s'.present == s.present
            && s'.stopping == s.stopping && s'.autoStart == s.autoStart && s'.once == s.once
            && s.state != Running
            && (s'.state == Running <==> e.a.Launch? && e.a.o.pid > 0)
            && (s'.pid <= 0 || s'.state == Running)
    ensures forall j :: 0 <= j < |w.svcs| && j != e.i ==> Step(w, e).svcs[j] == w.svcs[j]
    ensures e.a.Launch? <==> DepsSatisfied(w.svcs[e.i], w.svcs)
  {
    assert SlotOk(w.svcs[e.i]);
    hide ProcLedger, FdLedger, Handles, ChildrenAfter, ClockAfter, Sends, LegalLaunch, DepsSatisfied;
  }

  lemma StartKeepsNames(w: World, e: Event)
    requires Inv(w) && Legal(w, e) && StartEvent(e)
    ensures SameNames(w.svcs, Step(w, e).svcs)
    ensures forall i :: On(w.svcs, i) ==> On(Step(w, e).svcs, i)
  {
    StartSlot(w, e);
    hide Inv, Step, Legal;
  }

  /** A dependency that is up stays up while services are only being started. */
  lemma UpStays(a: seq<Service>, b: seq<Service>, s: Service)
    requires SameNames(a, b) && (forall i :: On(a, i) ==> On(b, i)) && DepsSatisfied(s, a)
    ensures DepsSatisfied(s, b)
  {
    forall d | d in s.deps ensures Up(b, d) {
      FindByNameSame(a, b, d.name);
      assert Up(a, d);
      var k := FindByName(a, d.name);
      if !d.soft {
        assert On(a, k.value);
      }
    }
  }

  /** Starting a service whose dependencies are up keeps the running set closed. */
  lemma StartKeepsClosed(w: World, e: Event)
    requires Inv(w) && Legal(w, e) && StartEvent(e) && Closed(w.svcs)
    ensures Closed(Step(w, e).svcs)
  {
    var t := Step(w, e).svcs;
    StartKeepsNames(w, e);
    StartSlot(w, e);
    hide Inv, Step, Legal;
    forall i | On(t, i) ensures DepsSatisfied(t[i], t) {
      assert i != e.i ==> On(w.svcs, i);
      UpStays(w.svcs, t, w.svcs[i]);
      assert t[i].deps == w.svcs[i].deps;
    }
  }

  lemma {:induction false} StartsKeep(w: World, es: seq<Event>)
    requires Inv(w) && LegalRun(w, es) && StartEvents(es)
    ensures SameNames(w.svcs, Run(w, es).svcs)
    ensures forall i :: On(w.svcs, i) ==> On(Run(w, es).svcs, i)
    ensures Closed(w.svcs) ==> Closed(Run(w, es).svcs)
    decreases |es|
  {
    hide Inv, Step, Legal, Closed, On;
    if es != [] {
      var c := es[..|es| - 1];
      StartsKeep(w, c);
      RunKeeps(w, c);
      StartKeepsNames(Run(w, c), es[|es| - 1]);
      if Closed(w.svcs) {
        StartKeepsClosed(Run(w, c), es[|es| - 1]);
      }
    }
  }

  /** Slots that a pass has not come to yet are as they were. */
  lemma {:induction false} NotYet(w: World, es: seq<Event>, i: nat, j: nat)
    requires LegalRun(w, es) && (forall k :: 0 <= k < |es| ==> es[k].Do? && es[k].i < i) && i <= j < |w.svcs|
    ensures Run(w, es).svcs[j] == w.svcs[j]
    decreases |es|
  {
    if es != [] {
      NotYet(w, es[..|es| - 1], i, j);
      ElsewhereSame(Run(w, es[..|es| - 1]), es[|es| - 1], j);
    }
  }

  lemma ElsewhereSame(w: World, e: Event, j: nat)
    requires Legal(w, e) && e.Do? && e.i != j && j < |w.svcs|
    ensures Step(w, e).svcs[j] == w.svcs[j]
  {
    hide SlotAfter, Handles, Allowed, ChildrenAfter, ClockAfter, Sends;
  }

  lemma StartedIsOn(u: World, e: Event)
    requires Inv(u) && Legal(u, e) && StartEvent(e) && DepsSatisfied(u.svcs[e.i], u.svcs)
    requires e.a.Launch? ==> e.a.o.pid > 0
    ensures On(Step(u, e).svcs, e.i)
  {
    StartSlot(u, e);
    hide Inv, Legal, Step, DepsSatisfied;
  }

  /** A due service whose dependencies run before the pass runs after it, unless its launch fails. */
  lemma {:induction false} PassStarts(w: World, t: int, i: nat, es: seq<Event>, k: nat)
    requires Inv(w) && i <= |w.svcs| && LegalRun(w, es) && Picks(w.svcs, t, i, es) && Faultless(es)
    requires k < i && Due(w.svcs[k], t) && DepsSatisfied(w.svcs[k], w.svcs)
    ensures On(Run(w, es).svcs, k)
    decreases i
  {
    hide Inv, Legal, Step, DepsSatisfied, On, Due;
    if !Due(w.svcs[i - 1], t) {
      PassStarts(w, t, i - 1, es, k);
    } else {
      var c, e := es[..|es| - 1], es[|es| - 1];
      var u := Run(w, c);
      PicksAreStarts(w.svcs, t, i - 1, c);
      RunKeeps(w, c);
      assert Faultless(c) && StartEvent(e) && Legal(u, e) && (e.a.Launch? ==> e.a.o.pid > 0);
      if k == i - 1 {
        NotYet(w, c, i - 1, k);
        StartsKeep(w, c);
        UpStays(w.svcs, u.svcs, w.svcs[k]);
        StartedIsOn(u, e);
      } else {
        PassStarts(w, t, i - 1, c, k);
        StartKeepsNames(u, e);
      }
    }
  }
}
