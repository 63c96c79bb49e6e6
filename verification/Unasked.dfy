/**
 What is not started unasked: services found with a `down` or a `once` marker, over every run. Who asks is told
 from the events alone.
 */
module Unasked {
  import opened Types
  import opened Machine
  import opened Ledger
  import opened Registry
  import Restart

  /** A `start` or `restart` command for slot `i`, or a new registration in it. */
  predicate Asks(e: Event, i: nat) {
    e.Do? && e.i == i && (e.a.Register? || (e.a.Cmd? && (e.a.cmd.Start? || e.a.cmd.Restart?)))
  }

  predicate Ups(e: Event, i: nat) {
    e.Do? && e.i == i && e.a.Cmd? && e.a.cmd.GoUp?
  }

  /** The service is not started for having a marker. */
  predicate Unwanted(s: Service, once: bool) {
    s.active ==> !s.manualStart && if once then s.once && s.pid <= 0 else !s.autoStart
  }

  lemma CommandUnwanted(s: Service, c: Command, once: bool)
    requires Unwanted(s, once) && !c.Start? && !c.Restart? && (c.GoUp? ==> once)
    ensures Unwanted(CommandAfter(s, c), once)
  {
    match c
    case Stop =>
    case GoDown =>
    case GoUp(_) =>
    case Once =>
    case Send(_) =>
  }

  lemma IoUnwanted(s: Service, c: Channel, op: StreamOp, once: bool)
    requires Unwanted(s, once)
    ensures Unwanted(IoAfter(s, c, op), once)
  {
  }

  lemma ActionUnwanted(w: World, i: nat, a: Action, once: bool)
    requires i < |w.svcs| && Allowed(w, i, a) && Unwanted(w.svcs[i], once)
    requires !Asks(Do(i, a), i) && (Ups(Do(i, a), i) ==> once)
    ensures Unwanted(SlotAfter(w.svcs[i], a), once) && !a.Launch?
  {
    hide Handles, DepsSatisfied, LegalLaunch, Stranded, AllowedIo, AfterLaunch, CommandAfter, IoAfter;
    match a
    case Cmd(c) => CommandUnwanted(w.svcs[i], c, once);
    case Io(c, op) => IoUnwanted(w.svcs[i], c, op, once);
    case Terminate(_) =>
    case TerminateLogger =>
    case Launch(_, _, _) =>
    case Defer(_, _) =>
    case ScanSeen =>
    case Free =>
    case KillMain =>
    case KillLogger =>
    case Finalize =>
  }

  lemma ExitUnwanted(s: Service, status: int, t: int, once: bool)
    requires Unwanted(s, once) && s.active
    ensures !once || s.pid <= 0 ==> Unwanted(AfterLoggerExit(s), once)
    ensures !once ==> Unwanted(AfterExit(s, status, t), once)
  {
  }

  lemma UnlistedUnwanted(s: Service, once: bool)
    requires Unwanted(s, once)
    ensures Unwanted(s.(present := false), once)
  {
  }

  lemma StepUnwanted(w: World, e: Event, i: nat, once: bool)
    requires Legal(w, e) && i < |w.svcs| && Unwanted(w.svcs[i], once)
    requires !Asks(e, i) && (Ups(e, i) ==> once)
    ensures Unwanted(Step(w, e).svcs[i], once) && !Restart.Launches(e, i)
  {
    hide Handles, SlotAfter, Allowed, AfterExit, AfterLoggerExit, Sends, ChildrenAfter, ClockAfter, Unwanted;
    if e.Do? && e.i == i {
      ActionUnwanted(w, i, e.a, once);
    } else if e.Reap? && Target(w, e).Some? && Target(w, e).value.0 == i {
      LiveTarget(w, e, i, once);
      ExitUnwanted(w.svcs[i], e.status, Seconds(e.at), once);
    } else {
      Restart.Untouched(w, e, i);
      UnlistedUnwanted(w.svcs[i], once);
    }
  }

  lemma LiveTarget(w: World, e: Event, i: nat, once: bool)
    requires Legal(w, e) && e.Reap? && Target(w, e).Some? && Target(w, e).value.0 == i && Unwanted(w.svcs[i], once)
    ensures w.svcs[i].active && (once ==> w.svcs[i].pid <= 0 && LoggerOf(w.svcs, e.pid).Some?)
  {
  }

  lemma {:induction false} RunUnwanted(w: World, es: seq<Event>, i: nat, once: bool)
    requires LegalRun(w, es) && i < |w.svcs| && Unwanted(w.svcs[i], once)
    requires forall k :: 0 <= k < |es| ==> !Asks(es[k], i) && (Ups(es[k], i) ==> once)
    ensures Unwanted(Run(w, es).svcs[i], once)
    ensures forall k :: 0 <= k < |es| ==> !Restart.Launches(es[k], i)
    decreases |es|
  {
    hide Step, Legal, Unwanted, Asks, Ups, Restart.Launches;
    if es != [] {
      var c, e := es[..|es| - 1], es[|es| - 1];
      RunUnwanted(w, c, i, once);
      StepUnwanted(Run(w, c), e, i, once);
    }
  }

  /** Before the first `start`, `restart` or registration a service that runs once and has not been asked for waits. */
  lemma OnceWaits(w: World, es: seq<Event>, i: nat, k: nat)
    requires LegalRun(w, es) && i < |w.svcs|
    requires w.svcs[i].active && w.svcs[i].once && !w.svcs[i].manualStart && w.svcs[i].pid <= 0
    requires k < |es| && Restart.Launches(es[k], i)
    ensures exists j :: 0 <= j < k && Asks(es[j], i)
  {
    hide Asks, Restart.Launches, Ups, Legal, Step;
    if forall j :: 0 <= j < k ==> !Asks(es[j], i) {
      WaitsUntil(w, es, i, k, true);
    }
  }

  /** A service that is down and has not been asked for waits for one of these or for `up`. */
  lemma DownWaits(w: World, es: seq<Event>, i: nat, k: nat)
    requires LegalRun(w, es) && i < |w.svcs|
    requires w.svcs[i].active && !w.svcs[i].autoStart && !w.svcs[i].manualStart
    requires k < |es| && Restart.Launches(es[k], i)
    ensures exists j :: 0 <= j < k && (Asks(es[j], i) || Ups(es[j], i))
  {
    hide Asks, Restart.Launches, Ups, Legal, Step;
    if forall j :: 0 <= j < k ==> !(Asks(es[j], i) || Ups(es[j], i)) {
      WaitsUntil(w, es, i, k, false);
    }
  }

  lemma WaitsUntil(w: World, es: seq<Event>, i: nat, k: nat, once: bool)
    requires LegalRun(w, es) && i < |w.svcs| && Unwanted(w.svcs[i], once) && k < |es|
    requires forall j :: 0 <= j < k ==> !Asks(es[j], i) && (Ups(es[j], i) ==> once)
    ensures !Restart.Launches(es[k], i)
  {
    hide Step, Legal, Unwanted, Asks, Ups, Restart.Launches;
    RunPrefix(w, es, k);
    RunUnwanted(w, es[..k], i, once);
    KindsApart(es[k], i);
    if !Asks(es[k], i) && (Ups(es[k], i) ==> once) {
      StepUnwanted(Run(w, es[..k]), es[k], i, once);
    }
  }

  lemma KindsApart(e: Event, i: nat)
    ensures Restart.Launches(e, i) ==> !Asks(e, i) && !Ups(e, i)
  {
  }

  // ---------------------------------------------------------------- once asked, started once

  lemma StartForgets(w: World, e: Event, i: nat)
    requires Legal(w, e) && i < |w.svcs| && Restart.Launches(e, i) && e.a.o.pid > 0
    ensures var s, t := w.svcs[i], Step(w, e).svcs[i];
            s.active && t.active && !t.manualStart && t.autoStart == s.autoStart
  {
    hide Handles, DepsSatisfied, LegalLaunch, Sends, ChildrenAfter, ClockAfter;
  }

  /**
   Each start of a service that is down has been asked for: between one start, once it has succeeded, and the next
   attempt there is a `start`, a `restart`, an `up` or a new registration.
   */
  lemma EachStartAsked(w: World, es: seq<Event>, i: nat, a: nat, b: nat)
    requires LegalRun(w, es) && i < |w.svcs| && a < b < |es|
    requires LegalRun(w, es[..a]) && !Run(w, es[..a]).svcs[i].autoStart
    requires Restart.Launches(es[a], i) && es[a].a.o.pid > 0 && Restart.Launches(es[b], i)
    ensures exists j :: a < j < b && (Asks(es[j], i) || Ups(es[j], i))
  {
    hide Asks, Ups, Legal, Step, LegalRun, Run;
    RunPrefix(w, es, a);
    StartForgets(Run(w, es[..a]), es[a], i);
    RunSnoc(w, es[..a], es[a]);
    assert es[..a] + [es[a]] == es[..a + 1] && es == es[..a + 1] + es[a + 1..];
    RunSplit(w, es[..a + 1], es[a + 1..]);
    var rest := es[a + 1..];
    assert rest[b - a - 1] == es[b];
    DownWaits(Run(w, es[..a + 1]), rest, i, b - a - 1);
    var j :| 0 <= j < b - a - 1 && (Asks(rest[j], i) || Ups(rest[j], i));
    assert rest[j] == es[a + 1 + j];
  }

  // ---------------------------------------------------------------- as found by a scan

  /** A service found with a `down` marker is not launched before it has been asked for. */
  lemma FoundDownWaits(root: Text, e: Entry, w: World, es: seq<Event>, i: nat, k: nat)
    requires LegalRun(w, es) && i < |w.svcs| && FoundAs(root, e, w.svcs[i]) && e.down
    requires k < |es| && Restart.Launches(es[k], i)
    ensures exists j :: 0 <= j < k && (Asks(es[j], i) || Ups(es[j], i))
  {
    hide Legal, Step;
    DownWaits(w, es, i, k);
  }

  /** A service found with a `once` marker waits even for that: an `up` does not start it. */
  lemma FoundOnceWaits(root: Text, e: Entry, w: World, es: seq<Event>, i: nat, k: nat)
    requires LegalRun(w, es) && i < |w.svcs| && FoundAs(root, e, w.svcs[i]) && e.once
    requires k < |es| && Restart.Launches(es[k], i)
    ensures exists j :: 0 <= j < k && Asks(es[j], i)
  {
    hide Legal, Step;
    OnceWaits(w, es, i, k);
  }
}
