/**
 The supervisor: the service table as an array rewritten in place, and the steps of its main loop. Every
 method extends a ghost history that is a legal run of the state machine, so what holds of all legal runs
 holds of the program.
 */
module Supervision {
  import opened Types
  import opened KernelAnswers
  import opened Machine
  import opened Ledger
  import opened Propagation
  import opened Reaping
  import opened Launching
  import opened FileSystem
  import opened LogFiles
  import opened Logs
  import opened Drains
  import opened Passes
  import opened Kernels
  import opened Guards

  function Flag(b: bool): nat {
    if b then 1 else 0
  }

  /** One SIGTERM to the process group of each victim, in order. */
  function Terms(svcs: seq<Service>, victims: seq<nat>): (sigs: seq<Signal>)
    requires forall k :: 0 <= k < |victims| ==> victims[k] < |svcs|
    ensures |sigs| == |victims|
  {
    seq(|victims|, k requires 0 <= k < |victims| => Signal(svcs[victims[k]].pid, SIGTERM, true))
  }

  class Supervisor {
    const root: Text
    const services: array<Service>
    const kernel: Kernel
    ghost const origin: World
    ghost const found: Files
    ghost var history: seq<Event>

    ghost function Snapshot(): World
      reads services, kernel`children, kernel`fds, kernel`ms, kernel`sent
    {
      World(services[..], kernel.children, kernel.fds, kernel.ms, kernel.sent)
    }

    /** The history, which is `h` followed by `es`, has led to the world `v` and the files `f` and kept all logs. */
    ghost predicate Traced(w: World, h: seq<Event>, es: seq<Event>, v: World, f: Files)
      reads this
    {
      && Inv(origin) && LegalRun(origin, history) && Run(origin, history) == v && Inv(v)
      && Logged(root, origin, found, history, f)
      && history == h + es && LegalRun(w, es) && Run(w, es) == v
    }

    /**
     Every read that has returned is in the history, and so is every refusal to open or write a log; the answers of
     the kernel are those the history stands for, and then the answers `ahead`.
     */
    ghost predicate Noted(ahead: seq<Answer>)
      reads this`history, kernel`received, kernel`refusals, kernel`answers
    {
      && kernel.received == Taken(history) && kernel.refusals == Refused(history)
      && kernel.answers == Asked(history) + ahead
    }

    /** The history is a legal run from the start of the program to the present state, which has kept all logs. */
    ghost predicate Valid()
      reads this, services, kernel`children, kernel`fds, kernel`ms, kernel`sent, kernel`files
      reads kernel`received, kernel`refusals, kernel`answers
    {
      && services.Length == MAX_SERVICES
      && Inv(origin) && LegalRun(origin, history) && Run(origin, history) == Snapshot()
      && Inv(Snapshot())
      && Logged(root, origin, found, history, kernel.files) && Noted([])
      && Seconds(kernel.ms) + RESTART_WINDOW < NEVER
    }

    /** Since the world was `w` and the history `h`, exactly the steps `es` have been taken. */
    ghost predicate Did(w: World, h: seq<Event>, es: seq<Event>)
      reads this, services, kernel`children, kernel`fds, kernel`ms, kernel`sent, kernel`files
      reads kernel`received, kernel`refusals, kernel`answers
    {
      Valid() && history == h + es && LegalRun(w, es) && Run(w, es) == Snapshot()
    }

    constructor (root: Text)
      ensures Valid() && fresh(services) && fresh(kernel) && Fresh(Snapshot()) && history == []
      ensures Seconds(kernel.ms) <= CLOCK_MAX && this.root == root
    {
      var table := new Service[MAX_SERVICES](_ => SERVICE_ZERO);
      var k := new Kernel();
      this.root, services, kernel := root, table, k;
      history, found := [], k.files;
      origin := World(table[..], k.children, k.fds, k.ms, k.sent);
      new;
      FreshInv(Snapshot());
      LoggedFresh(root, Snapshot(), kernel.files);
    }

    /** Add to the history the step that the table, the kernel and the files have just taken. */
    ghost method RecordLogs(w: World, h: seq<Event>, es: seq<Event>, v: World, e: Event, f: Files)
      requires services.Length == MAX_SERVICES && Seconds(kernel.ms) + RESTART_WINDOW < NEVER
      requires Traced(w, h, es, v, f) && KeepsLogs(root, v, f, [e], kernel.files)
      requires kernel.received == Taken(history) + TakenBy(e) && kernel.refusals == Refused(history) + RefusedBy(e)
      requires kernel.answers == Asked(history) + AskedBy(e)
      requires Legal(v, e) && Snapshot() == Step(v, e)
      modifies this`history
      ensures Did(w, h, es + [e])
    {
      hide Step, Legal, Inv, Seconds, Logged, KeepsLogs, Taken, Refused, Asked, TakenBy, RefusedBy, AskedBy;
      hide LegalRun, Run;
      RefusedOne(e);
      TakenConcat(history, [e]);
      RefusedConcat(history, [e]);
      AskedConcat(history, [e]);
      LoggedMore(root, origin, found, history, f, e, kernel.files);
      RunSnoc(origin, history, e);
      RunSnoc(w, es, e);
      StepKeeps(v, e);
      history := history + [e];
      assert history == h + (es + [e]);
    }

    /** The same for a step that leaves the files and the log ends alone. */
    ghost method Record(w: World, h: seq<Event>, es: seq<Event>, v: World, e: Event)
      requires services.Length == MAX_SERVICES && Seconds(kernel.ms) + RESTART_WINDOW < NEVER
      requires Traced(w, h, es, v, kernel.files) && Noted(AskedBy(e)) && Inert(e) && TakenBy(e) == []
               && RefusedBy(e) == 0
      requires Legal(v, e) && Snapshot() == Step(v, e)
      modifies this`history
      ensures Did(w, h, es + [e])
    {
      hide Step, Legal, Inv, Seconds, Logged, KeepsLogs, Inert, Run, LegalRun;
      InertKeeps(root, v, kernel.files, e);
      RecordLogs(w, h, es, v, e, kernel.files);
    }

    /** The answers since the steps `es` are those the steps after them stand for. */
    lemma AskedSince(w: World, h: seq<Event>, es: seq<Event>, more: seq<Event>, was: seq<Answer>)
      requires Did(w, h, es + more) && was == Asked(h + es)
      ensures kernel.answers == was + Asked(more)
    {
      hide Inv, Run, LegalRun, Logged, Taken, Refused, Asked;
      AskedConcat(h + es, more);
      assert h + es + more == h + (es + more);
    }

    /** The logs as they are now: what they held at first, then all that has been written to them. */
    lemma LogsNow()
      requires Valid()
      ensures LogsOk(root, services[..], kernel.files) && Gains(root, origin, found, history, kernel.files)
    {
      hide Inv, Run, LegalRun, Logged, LogsOk;
      LoggedFacts(root, origin, found, history, kernel.files);
    }

    /** What was done earlier and what is done now: in between, each log has gained what was written to it. */
    lemma GainedSince(w: World, h: seq<Event>, es: seq<Event>, f: Files)
      requires Did(w, h, es) && LegalRun(origin, h) && Run(origin, h) == w && Logged(root, origin, found, h, f)
      ensures LegalRun(w, es) && Gains(root, w, f, es, kernel.files)
    {
      hide Inv, Run, LegalRun, Logged;
      LoggedBetween(root, origin, found, h, f, es, kernel.files);
    }

    lemma InvNow(w: World, h: seq<Event>, es: seq<Event>)
      requires Did(w, h, es)
      ensures Inv(Snapshot())
    {
      hide Inv;
    }

    lemma DidNothing(w: World, h: seq<Event>, es: seq<Event>)
      requires Did(w, h, es)
      ensures Did(Snapshot(), h + es, []) && LegalRun(w, es) && Run(w, es) == Snapshot()
    {
      hide Inv, Legal, Step;
    }

    /** Two consecutive stretches make one. */
    lemma DidMore(w: World, h: seq<Event>, es: seq<Event>, v: World, more: seq<Event>)
      requires LegalRun(w, es) && Run(w, es) == v && Did(v, h + es, more)
      ensures Did(w, h, es + more)
    {
      hide Run, LegalRun, Valid;
      RunConcat(w, es, more);
      assert h + es + more == h + (es + more);
    }

    /** What has been done after the steps `es`, seen from the world `v` they led to. */
    lemma DidSince(w: World, h: seq<Event>, es: seq<Event>, v: World, more: seq<Event>)
      requires LegalRun(w, es) && Run(w, es) == v && Did(w, h, es + more)
      ensures Did(v, h + es, more)
    {
      hide Run, LegalRun, Valid;
      RunSplit(w, es, more);
      assert h + es + more == h + (es + more);
    }

    method Terminate(i: nat, cause: Cause, ghost w: World, ghost h: seq<Event>, ghost es: seq<Event>)
      requires Did(w, h, es) && i < services.Length && MayTerminate(services[..], i, cause)
      modifies services, kernel`sent, this`history
      ensures Did(w, h, es + [Do(i, Machine.Terminate(cause))])
      ensures services[..] == old(services[..])[i := Stopped(old(services[i]))]
      ensures kernel.sent == old(kernel.sent) + [Signal(old(services[i].pid), SIGTERM, true)]
    {
      hide Run, LegalRun, Logged, Taken, Refused, Asked, SlotOk, ProcLedger, Handles, DepsSatisfied;
      ghost var v := Snapshot();
      HeldMain(v, i);
      kernel.Kill(services[i].pid, SIGTERM, true);
      services[i] := services[i].(stopping := true, state := Stopping);
      SameFds(v, i, services[i]);
      Record(w, h, es, v, Do(i, Machine.Terminate(cause)));
    }

    method TerminateLogger(i: nat, ghost w: World, ghost h: seq<Event>, ghost es: seq<Event>)
      requires Did(w, h, es) && i < services.Length
      requires services[i].active && services[i].logPid > 0 && !services[i].logStopping
      modifies services, kernel`sent, this`history
      ensures Did(w, h, es + [Do(i, Machine.TerminateLogger)])
      ensures services[..] == old(services[..])[i := LoggerStopped(old(services[i]))]
      ensures kernel.sent == old(kernel.sent) + [Signal(old(services[i].logPid), SIGTERM, false)]
    {
      hide Run, LegalRun, Logged, Taken, Refused, Asked, SlotOk, ProcLedger, Handles;
      ghost var v := Snapshot();
      HeldLogger(v, i);
      kernel.Kill(services[i].logPid, SIGTERM, false);
      services[i] := services[i].(logStopping := true);
      SameFds(v, i, services[i]);
      Record(w, h, es, v, Do(i, Machine.TerminateLogger));
    }

    method KillMain(i: nat, ghost w: World, ghost h: seq<Event>, ghost es: seq<Event>)
      requires Did(w, h, es) && i < services.Length && services[i].active && services[i].pid > 0
      modifies kernel`sent, this`history
      ensures Did(w, h, es + [Do(i, Machine.KillMain)])
      ensures kernel.sent == old(kernel.sent) + [Signal(services[i].pid, SIGKILL, true)]
    {
      hide Run, LegalRun, Logged, Taken, Refused, Asked, SlotOk, ProcLedger, Handles;
      ghost var v := Snapshot();
      HeldMain(v, i);
      kernel.Kill(services[i].pid, SIGKILL, true);
      SameFds(v, i, services[i]);
      Record(w, h, es, v, Do(i, Machine.KillMain));
    }

    method KillLogger(i: nat, ghost w: World, ghost h: seq<Event>, ghost es: seq<Event>)
      requires Did(w, h, es) && i < services.Length && services[i].active && services[i].logPid > 0
      modifies kernel`sent, this`history
      ensures Did(w, h, es + [Do(i, Machine.KillLogger)])
      ensures kernel.sent == old(kernel.sent) + [Signal(services[i].logPid, SIGKILL, false)]
    {
      hide Run, LegalRun, Logged, Taken, Refused, Asked, SlotOk, ProcLedger, Handles;
      ghost var v := Snapshot();
      HeldLogger(v, i);
      kernel.Kill(services[i].logPid, SIGKILL, false);
      SameFds(v, i, services[i]);
      Record(w, h, es, v, Do(i, Machine.KillLogger));
    }

    // -------------------------------------------------------------- the clock

    /** `mono_now`. */
    method Now(ghost w: World, ghost h: seq<Event>, ghost es: seq<Event>) returns (t: int)
      requires Did(w, h, es)
      modifies kernel`ms, this`history
      ensures Did(w, h, es + [Tick(kernel.ms)]) && t == Seconds(kernel.ms)
      ensures old(kernel.ms) <= kernel.ms && Ticks(old(kernel.ms), kernel.ms)
    {
      hide Run, LegalRun, Logged, Taken, Refused, Asked, SlotOk, ProcLedger, FdLedger;
      ghost var v := Snapshot();
      t := kernel.MonoNow();
      Record(w, h, es, v, Tick(kernel.ms));
    }

    /** `sleep_ms`. */
    method Nap(d: nat, ghost w: World, ghost h: seq<Event>, ghost es: seq<Event>)
      requires Did(w, h, es) && d <= 1000 && Seconds(kernel.ms) + 1 + RESTART_WINDOW < NEVER
      modifies kernel`ms, kernel`unread, this`history
      ensures Did(w, h, es + [Tick(kernel.ms)]) && old(kernel.ms) + d <= kernel.ms
      ensures Seconds(kernel.ms) <= Seconds(old(kernel.ms)) + 1 || Seconds(kernel.ms) <= CLOCK_MAX
    {
      hide Run, LegalRun, Logged, Taken, Refused, Asked, SlotOk, ProcLedger, FdLedger;
      ghost var v := Snapshot();
      kernel.Sleep(d);
      Record(w, h, es, v, Tick(kernel.ms));
    }

    // -------------------------------------------------------------- giving up a slot

    /** `close_service_fds`: each descriptor of the slot is closed once. */
    method CloseServiceFds(s: Service, ghost fds: set<int>)
      requires s.active && DistinctEnds(s) && Handles(s) <= fds && (forall f :: f in fds ==> f >= 0)
      requires kernel.fds == fds
      modifies kernel`fds
      ensures kernel.fds == fds - Handles(s)
    {
      HandlesOf(s);
      DistinctEndsOf(s);
      kernel.Close(s.streams.out.readFd);
      kernel.Close(s.streams.out.logFd);
      kernel.Close(s.streams.err.readFd);
      kernel.Close(s.streams.err.logFd);
    }

    lemma FinalSlot(s: Service)
      ensures WithoutFds(s).(pid := -1, logPid := -1, state := Down, logState := Down) == Finalized(s)
      ensures Handles(Finalized(s)) == {}
    {
      assert forall e :: Fd(Finalized(s), e) < 0;
    }

    /** The last sweep of the program over slot `i`. */
    method Finalize(i: nat, ghost w: World, ghost h: seq<Event>, ghost es: seq<Event>)
      requires Did(w, h, es) && i < services.Length && services[i].active
      modifies services, kernel`fds, this`history
      ensures Did(w, h, es + [Do(i, Machine.Finalize)])
      ensures services[..] == old(services[..])[i := Finalized(old(services[i]))]
    {
      hide Run, LegalRun, Logged, Taken, Refused, Asked, SlotOk, ProcLedger, Handles, Finalized;
      ghost var v := Snapshot();
      var s := services[i];
      OpenFds(v);
      CloseServiceFds(s, v.fds);
      FinalSlot(s);
      services[i] := WithoutFds(s).(pid := -1, logPid := -1, state := Down, logState := Down);
      Record(w, h, es, v, Do(i, Machine.Finalize));
    }

    // -------------------------------------------------------------- look-up

    method FindServiceByName(name: Text) returns (k: Option<nat>)
      ensures k == FindByName(services[..], name)
    {
      for i := 0 to services.Length
        invariant forall j :: 0 <= j < i ==> !Named(services[..][j], name)
      {
        if services[i].active && services[i].name == name {
          assert Named(services[..][i], name);
          return Some(i);
        }
      }
      return None;
    }

    method AllDepsUp(s: Service) returns (ok: bool)
      ensures ok == DepsSatisfied(s, services[..])
    {
      for d := 0 to |s.deps|
        invariant forall j :: 0 <= j < d ==> Up(services[..], s.deps[j])
      {
        if !s.deps[d].soft {
          var k := FindServiceByName(s.deps[d].name);
          if k.None? || services[k.value].state != Running {
            assert !Up(services[..], s.deps[d]);
            return false;
          }
        }
      }
      return true;
    }

    // -------------------------------------------------------------- propagation

    lemma LifecycleNow(w: World, h: seq<Event>, es: seq<Event>)
      requires Did(w, h, es)
      ensures Lifecycle(services[..])
    {
      hide ProcLedger, FdLedger, SlotOk, Run, LegalRun;
    }

    /** The table is `t` with the services of `xs` told to stop, each signalled once and in that order. */
    ghost predicate OnlyStopped(t: seq<Service>, sigs: seq<Signal>, xs: seq<nat>)
      reads services, kernel
    {
      && |t| == services.Length && Distinct(xs) && (forall k :: 0 <= k < |xs| ==> xs[k] < |t|)
      && services[..] == Marked(t, Members(xs))
      && kernel.sent == sigs + Terms(t, xs)
    }

    lemma NoneStopped()
      ensures OnlyStopped(services[..], kernel.sent, [])
    {
      assert Marked(services[..], Members([])) == services[..];
    }

    lemma StillAsWas(t: seq<Service>, sigs: seq<Signal>, xs: seq<nat>, i: nat)
      requires OnlyStopped(t, sigs, xs) && i < services.Length && i !in xs
      ensures i < |t| && services[i] == t[i] && services[..][i] == t[i] && i !in Members(xs)
      ensures Distinct(xs + [i])
    {
    }

    lemma StoppedTable(t: seq<Service>, sigs: seq<Signal>, xs: seq<nat>)
      requires OnlyStopped(t, sigs, xs)
      ensures |t| == services.Length && services[..] == Marked(t, Members(xs)) && Distinct(xs)
    {
    }

    method StopOne(i: nat, cause: Cause, ghost w: World, ghost h: seq<Event>, ghost es: seq<Event>,
                   ghost t: seq<Service>, ghost sigs: seq<Signal>, ghost xs: seq<nat>)
      requires Did(w, h, es + Terminations(xs, cause)) && OnlyStopped(t, sigs, xs)
      requires i < services.Length && i !in xs && MayTerminate(services[..], i, cause)
      modifies services, kernel`sent, this`history
      ensures Did(w, h, es + Terminations(xs + [i], cause)) && OnlyStopped(t, sigs, xs + [i])
    {
      hide Did, Valid;
      MarkedMore(t, Members(xs), i);
      Terminate(i, cause, w, h, es + Terminations(xs, cause));
      hide MayTerminate;
      assert es + Terminations(xs, cause) + [Do(i, Machine.Terminate(cause))] == es + Terminations(xs + [i], cause);
      assert Members(xs + [i]) == Members(xs) + {i};
      assert forall k :: 0 <= k < |xs| ==> xs[k] == (xs + [i])[k];
      assert Terms(t, xs + [i]) == Terms(t, xs) + [Signal(t[i].pid, SIGTERM, true)];
    }

    /** One pass of `stop_transitive_deps` over the table. */
    method StopPass(ghost w: World, ghost h: seq<Event>, ghost es: seq<Event>,
                    ghost t: seq<Service>, ghost sigs: seq<Signal>, ghost before: seq<nat>)
      returns (changed: bool, ghost victims: seq<nat>)
      requires SomeDoomed(t, before) && OnlyStopped(t, sigs, before)
      requires Did(w, h, es + Terminations(before, LostDependency))
      modifies services, kernel`sent, this`history
      ensures SomeDoomed(t, victims) && OnlyStopped(t, sigs, victims)
      ensures Did(w, h, es + Terminations(victims, LostDependency))
      ensures |victims| >= |before| && (changed <==> |victims| > |before|)
      ensures !changed ==> forall j :: 0 <= j < |t| ==> !Stranded(services[..], j)
    {
      hide Did, Valid, SomeDoomed, DepsSatisfied;
      changed, victims := false, before;
      for i := 0 to services.Length
        invariant SomeDoomed(t, victims) && OnlyStopped(t, sigs, victims)
        invariant Did(w, h, es + Terminations(victims, LostDependency))
        invariant |victims| >= |before| && (changed <==> |victims| > |before|)
        invariant !changed ==> forall j :: 0 <= j < i ==> !Stranded(services[..], j)
      {
        var s := services[i];
        if s.active && !s.stopping && s.pid > 0 && s.state == Running {
          var up := AllDepsUp(s);
          if !up {
            OneMoreDoomed(t, victims, i);
            StopOne(i, LostDependency, w, h, es, t, sigs, victims);
            victims := victims + [i];
            changed := true;
          }
        }
      }
    }

    /**
     `stop_transitive_deps`: stops exactly the doomed services, each once, in at most one pass more than
     there are victims.
     */
    method StopTransitiveDeps(ghost w: World, ghost h: seq<Event>, ghost es: seq<Event>)
      returns (ghost victims: seq<nat>, ghost passes: nat)
      requires Did(w, h, es)
      modifies services, kernel`sent, this`history
      ensures AllDoomed(old(services[..]), victims) && OnlyStopped(old(services[..]), old(kernel.sent), victims)
      ensures Closed(services[..])
      ensures passes <= |victims| + 1
      ensures Did(w, h, es + Terminations(victims, LostDependency))
    {
      hide Did, Valid, SomeDoomed, AllDoomed, Closed, Lifecycle, DepsSatisfied, Stranded;
      ghost var t, sigs := services[..], kernel.sent;
      LifecycleNow(w, h, es);
      NoneDoomed(t);
      victims, passes := [], 0;
      assert es + Terminations([], LostDependency) == es;
      var changed := true;
      while changed
        invariant Did(w, h, es + Terminations(victims, LostDependency))
        invariant SomeDoomed(t, victims) && OnlyStopped(t, sigs, victims)
        invariant passes <= |victims| + Flag(!changed)
        invariant !changed ==> forall j :: 0 <= j < |t| ==> !Stranded(services[..], j)
        decreases |t| - |victims|, changed
      {
        ghost var before := victims;
        changed, victims := StopPass(w, h, es, t, sigs, before);
        passes := passes + 1;
        SomeBound(t, victims);
      }
      SomeIsAll(t, victims);
    }

    // -------------------------------------------------------------- reaping

    /** The parent's side of `run_finish`: the finish script, when there is one, becomes a child nobody holds. */
    method RunFinish() returns (pid: int, ghost asked: seq<Answer>)
      modifies kernel`children, kernel`answers
      ensures pid > 0 ==> pid !in old(kernel.children)
      ensures kernel.children == old(kernel.children) + Just(pid)
      ensures kernel.answers == old(kernel.answers) + asked && FinishAnswers(asked, pid)
    {
      var runnable := kernel.Access();
      pid := -1;
      asked := [Executable(runnable)];
      if runnable {
        pid := kernel.Fork();
        asked := asked + [Forked(pid)];
      }
    }

    /** Slot `i` takes note of the end of its main process and of when it may be started again. */
    method AccountExit(i: nat, status: int, t: int)
      requires i < services.Length
      modifies services
      ensures services[..] == old(services[..])[i := AfterExit(old(services[i]), status, t)]
      ensures HasExited(old(services[i]), status, t, services[i])
    {
      hide HasExited;
      ExitTaken(services[i], status, t);
      var s := services[i];
      var state, once, restarts, restartAt := Decode(status), s.once, s.restarts, s.restartAt;
      var halting := s.logPid > 0 && (s.stopping || state == Failed || state == Down);
      if s.stopping || s.once {
        restartAt := NEVER;
        if s.once {
          once := false;
        }
      } else {
        if t - s.startedAt > RESTART_WINDOW {
          restarts := 0;
        } else {
          restarts := restarts + 1;
        }
        if restarts > MAX_RESTARTS {
          state, restartAt := Failed, NEVER;
        } else {
          var delay := if restarts < 5 then BACKOFF_SHORT else if restarts < 20 then BACKOFF_MED else BACKOFF_LONG;
          restartAt := t + delay;
        }
      }
      services[i] := s.(pid := -1, state := state, logStopping := s.logStopping || halting,
                        once := once, restarts := restarts, restartAt := restartAt);
    }

    /** The main process of slot `i` has been waited for: it is accounted for and its restart is scheduled. */
    method ExitMain(i: nat, pid: int, status: int, t: int, ghost w: World, ghost h: seq<Event>, ghost es: seq<Event>,
                    ghost v: World) returns (ghost e: Event, unrequested: bool)
      requires Reaped(w, h, es, v, pid, t) && i < services.Length
      requires LoggerOf(v.svcs, pid) == None && MainOf(v.svcs, pid) == Some(i)
      modifies services, kernel`children, kernel`answers, kernel`sent, this`history
      ensures Did(w, h, es + [e]) && e.Reap? && Legal(v, e) && unrequested == Unrequested(v, e)
      ensures Snapshot() == Step(v, e) && e.pid == pid
      ensures HasExited(old(services[i]), status, t, services[i])
      ensures kernel.sent == old(kernel.sent)
                + (if EndsLogger(old(services[i]), status) then [Signal(old(services[i].logPid), 15, false)] else [])
    {
      hide Run, LegalRun, Logged, Taken, Refused, Asked, SlotOk, ProcLedger, Handles, AfterExit, FinishAnswers;
      hide Deaf, Inert, AskedBy, TakenBy, RefusedBy, LoggerOf, MainOf, HasExited;
      var s := services[i];
      ReapedMain(v, i, pid);
      var finish;
      ghost var asked;
      finish, asked := RunFinish();
      e := Reap(pid, status, kernel.ms, finish, asked);
      ReapNotes(Asked(history), e);
      unrequested := !s.stopping;
      if StopsLogger(s, status) {
        HeldLogger(v, i);
        kernel.Kill(s.logPid, SIGTERM, false);
      }
      AccountExit(i, status, t);
      ExitEnds(s, status, t);
      SameFds(v, i, services[i]);
      Record(w, h, es, v, e);
    }

    lemma ReapNotes(was: seq<Answer>, e: Event)
      requires e.Reap?
      ensures Inert(e) && TakenBy(e) == [] && RefusedBy(e) == 0
      ensures was + [Waited(e.pid)] + e.asked == was + AskedBy(e)
    {
    }

    lemma ExitEnds(s: Service, status: int, t: int)
      ensures forall e :: Fd(AfterExit(s, status, t), e) == Fd(s, e)
    {
    }

    /** `waitpid` has just returned `pid`, and the clock has been read as `t`. */
    ghost predicate Reaped(w: World, h: seq<Event>, es: seq<Event>, v: World, pid: int, t: int)
      reads this, services, kernel
    {
      && services.Length == MAX_SERVICES && Traced(w, h, es, v, kernel.files) && Noted([Waited(pid)])
      && pid > 0 && pid in v.children
      && services[..] == v.svcs && kernel.children == v.children - {pid} && kernel.fds == v.fds
      && kernel.sent == v.sent && v.ms <= kernel.ms && t == Seconds(kernel.ms) && t + RESTART_WINDOW < NEVER
    }

    lemma ReapedMain(v: World, i: nat, pid: int)
      requires Inv(v) && i < |v.svcs| && v.svcs[i].active && v.svcs[i].pid == pid && pid > 0
      ensures v.svcs[i].logPid != pid
    {
      assert Proc(v.svcs[i], Main) == pid && Proc(v.svcs[i], Logger) == v.svcs[i].logPid;
    }

    method ExitLogger(i: nat, pid: int, ghost status: int, ghost t: int, ghost w: World, ghost h: seq<Event>,
                      ghost es: seq<Event>, ghost v: World) returns (ghost e: Event)
      requires Reaped(w, h, es, v, pid, t) && i < services.Length && LoggerOf(v.svcs, pid) == Some(i)
      modifies services, this`history
      ensures Did(w, h, es + [e]) && e.Reap? && Legal(v, e) && !Unrequested(v, e)
      ensures Snapshot() == Step(v, e) && e.pid == pid
      ensures services[i] == old(services[i]).(logPid := -1, logState := Down, logStopping := false)
    {
      hide Run, LegalRun, Logged, Taken, Refused, Asked, SlotOk, ProcLedger, Handles;
      e := Reap(pid, status, kernel.ms, -1, []);
      services[i] := services[i].(logPid := -1, logState := Down, logStopping := false);
      SameFds(v, i, services[i]);
      Record(w, h, es, v, e);
    }

    method ExitOther(pid: int, ghost status: int, ghost t: int, ghost w: World, ghost h: seq<Event>,
                     ghost es: seq<Event>, ghost v: World) returns (ghost e: Event)
      requires Reaped(w, h, es, v, pid, t) && LoggerOf(v.svcs, pid) == None && MainOf(v.svcs, pid) == None
      modifies this`history
      ensures Did(w, h, es + [e]) && e.Reap? && Legal(v, e) && !Unrequested(v, e)
      ensures Snapshot() == Step(v, e) && e.pid == pid
    {
      hide Run, LegalRun, Logged, Taken, Refused, Asked, SlotOk, ProcLedger, Handles;
      e := Reap(pid, status, kernel.ms, -1, []);
      Record(w, h, es, v, e);
    }

    /** One turn of the loop of `reap_children`. */
    method ReapOne(ghost w: World, ghost h: seq<Event>, ghost es: seq<Event>)
      returns (done: bool, unrequested: bool, ghost e: Event)
      requires Did(w, h, es)
      modifies services, kernel`children, kernel`answers, kernel`sent, kernel`ms, this`history
      ensures Ticks(old(kernel.ms), kernel.ms)
      ensures Did(w, h, es + [e]) && Legal(old(Snapshot()), e) && Snapshot() == Step(old(Snapshot()), e)
      ensures if done then e.Idle? && Snapshot() == old(Snapshot())
              else e.Reap? && unrequested == Unrequested(old(Snapshot()), e)
      ensures kernel.answers == old(kernel.answers) + AskedBy(e)
    {
      hide Run, LegalRun, Logged, Taken, Refused, Asked, AskedBy, Inv, Legal, Step, FinishAnswers;
      ghost var v, was := Snapshot(), kernel.answers;
      var pid, status := kernel.WaitAny();
      if pid <= 0 {
        done, unrequested, e := true, false, Idle(pid);
        NoteIdle(w, h, es, v, pid);
        AskedNow(w, h, es, e, was);
        return;
      }
      done, unrequested := false, false;
      var t := kernel.MonoNow();
      for i := 0 to services.Length
        invariant Reaped(w, h, es, v, pid, t) && Ticks(old(kernel.ms), kernel.ms) && history == old(history)
        invariant forall j :: 0 <= j < i ==> !(v.svcs[j].active && v.svcs[j].logPid == pid)
      {
        if services[i].active && services[i].logPid == pid {
          e := ExitLogger(i, pid, status, t, w, h, es, v);
          AskedNow(w, h, es, e, was);
          return;
        }
      }
      for i := 0 to services.Length
        invariant Reaped(w, h, es, v, pid, t) && Ticks(old(kernel.ms), kernel.ms) && history == old(history)
        invariant forall j :: 0 <= j < i ==> !(v.svcs[j].active && v.svcs[j].pid == pid)
      {
        if services[i].active && services[i].pid == pid {
          e, unrequested := ExitMain(i, pid, status, t, w, h, es, v);
          AskedNow(w, h, es, e, was);
          return;
        }
      }
      e := ExitOther(pid, status, t, w, h, es, v);
      AskedNow(w, h, es, e, was);
    }

    /** The kernel has nothing to wait for. */
    ghost method NoteIdle(w: World, h: seq<Event>, es: seq<Event>, v: World, pid: int)
      requires services.Length == MAX_SERVICES && Seconds(kernel.ms) + RESTART_WINDOW < NEVER && Snapshot() == v
      requires Traced(w, h, es, v, kernel.files) && Noted([Waited(pid)]) && pid <= 0
      modifies this`history
      ensures Did(w, h, es + [Idle(pid)]) && Legal(v, Idle(pid)) && Step(v, Idle(pid)) == v
    {
      hide Run, LegalRun, Logged, Taken, Refused, Asked, Inv, Step;
      AsideStep(v, Idle(pid));
      Record(w, h, es, v, Idle(pid));
    }

    lemma AskedNow(w: World, h: seq<Event>, es: seq<Event>, e: Event, was: seq<Answer>)
      requires Did(w, h, es + [e]) && was == Asked(h + es)
      ensures kernel.answers == was + AskedBy(e)
    {
      hide Did, Asked, AskedBy;
      AskedSince(w, h, es, [e], was);
      RefusedOne(e);
    }

    /** `kill_main_on_log_death`. */
    method KillMainOnLogDeath(ghost w: World, ghost h: seq<Event>, ghost es: seq<Event>)
      returns (ghost orphans: seq<nat>)
      requires Did(w, h, es)
      modifies services, kernel`sent, this`history
      ensures AllOrphans(old(services[..]), orphans)
      ensures OnlyStopped(old(services[..]), old(kernel.sent), orphans)
      ensures Did(w, h, es + Terminations(orphans, LostLogger))
    {
      hide Did, Valid, Stranded, OnlyStopped;
      ghost var t, sigs := services[..], kernel.sent;
      orphans := [];
      NoneStopped();
      assert es + Terminations([], LostLogger) == es;
      for i := 0 to services.Length
        invariant forall k :: 0 <= k < |orphans| ==> orphans[k] < i
        invariant forall j: nat :: j < i ==> (j in Members(orphans) <==> LacksLogger(t[j]))
        invariant OnlyStopped(t, sigs, orphans)
        invariant Did(w, h, es + Terminations(orphans, LostLogger))
      {
        var s := services[i];
        StillAsWas(t, sigs, orphans, i);
        if s.active && s.hasLog && s.logPid <= 0 && s.pid > 0 && !s.stopping && s.state == Running {
          StopOne(i, LostLogger, w, h, es, t, sigs, orphans);
          assert Members(orphans + [i]) == Members(orphans) + {i};
          orphans := orphans + [i];
        }
      }
      StoppedTable(t, sigs, orphans);
    }

    /** Everything waiting to be reaped is reaped; the loop ends although each exit may leave a finish script. */
    method ReapAll(ghost w: World, ghost h: seq<Event>, ghost es: seq<Event>)
      returns (needed: bool, ghost reaps: seq<Event>, ghost idle: int)
      requires Did(w, h, es)
      modifies services, kernel`children, kernel`answers, kernel`sent, kernel`ms, this`history
      ensures Ticks(old(kernel.ms), kernel.ms)
      ensures AllReaps(reaps) && LegalRun(old(Snapshot()), reaps) && Run(old(Snapshot()), reaps) == Snapshot()
      ensures needed == SomeUnrequested(old(Snapshot()), reaps)
      ensures Did(w, h, es + (reaps + [Idle(idle)]))
      ensures kernel.answers == old(kernel.answers) + Asked(reaps + [Idle(idle)])
    {
      hide Inv, Legal, Step, LegalRun, Run, Did, Valid, AllReaps, SomeUnrequested, Unrequested, ReapMeasure;
      hide Asked, AskedBy, Traced;
      ghost var v, was := Snapshot(), kernel.answers;
      TracedNow(w, h, es);
      needed, reaps := false, [];
      assert es + [] == es;
      NoReaps(v);
      while true
        invariant Ticks(old(kernel.ms), kernel.ms)
        invariant AllReaps(reaps) && LegalRun(v, reaps) && Run(v, reaps) == Snapshot()
        invariant needed == SomeUnrequested(v, reaps)
        invariant Did(w, h, es + reaps)
        decreases ReapMeasure(Snapshot())
      {
        ghost var u := Snapshot();
        InvNow(w, h, es + reaps);
        var done, unrequested;
        ghost var e;
        done, unrequested, e := ReapOne(w, h, es + reaps);
        if done {
          idle := e.pid;
          assert es + reaps + [e] == es + (reaps + [Idle(idle)]);
          break;
        }
        needed := needed || unrequested;
        ReapShrinks(u, e);
        RunSnoc(v, reaps, e);
        OneMoreReap(v, reaps, e);
        assert es + (reaps + [e]) == es + reaps + [e];
        reaps := reaps + [e];
      }
      AskedSince(w, h, es, reaps + [Idle(idle)], was);
    }

    /** `reap_children`. The kernel has then answered that there is nothing more to wait for. */
    method ReapChildren(ghost w: World, ghost h: seq<Event>, ghost es: seq<Event>)
      returns (ghost reaps: seq<Event>, ghost idle: int, ghost doomed: seq<nat>, ghost orphans: seq<nat>)
      requires Did(w, h, es)
      modifies services, kernel`children, kernel`answers, kernel`sent, kernel`ms, this`history
      ensures Ticks(old(kernel.ms), kernel.ms)
      ensures kernel.answers == old(kernel.answers) + Asked(reaps + [Idle(idle)])
      ensures ReapPhase(old(Snapshot()), reaps, doomed, orphans)
      ensures services[..] == AfterReapPhase(old(Snapshot()), reaps, doomed, orphans)
      ensures Did(w, h, es + ReapEvents(reaps, idle, doomed, orphans))
    {
      hide Did, Valid, AllReaps, SomeUnrequested, AllDoomed, AllOrphans, LegalRun, Run, Closed, Asked;
      hide Terminations, ReapEvents;
      var needed;
      needed, reaps, idle := ReapAll(w, h, es);
      ghost var m, did := services[..], es + (reaps + [Idle(idle)]);
      doomed := [];
      PhaseJoined(did, [], 0, [], []);
      NoneMarked(m);
      if needed {
        ghost var passes;
        doomed, passes := StopTransitiveDeps(w, h, did);
      }
      orphans := KillMainOnLogDeath(w, h, did + Terminations(doomed, LostDependency));
      PhaseJoined(es, reaps, idle, doomed, orphans);
    }

    // -------------------------------------------------------------- launching

    /** `open_log` on a stream whose log end is `was`. */
    method OpenLogFile(dir: Text, c: Channel, was: int) returns (fd: int, len: nat)
      requires was >= 0 ==> was in kernel.fds
      modifies kernel`fds, kernel`files, kernel`refusals, kernel`answers
      ensures kernel.answers == old(kernel.answers) + [Opened(fd)]
      ensures fd >= -1 && (fd >= 0 ==> fd !in old(kernel.fds) - {was}) && (fd < 0 ==> len == 0)
      ensures kernel.fds == old(kernel.fds) - {was} + NonNeg(fd)
      ensures kernel.refusals == old(kernel.refusals) + Flag(fd < 0)
      ensures OpenedAs(old(kernel.files), LogPath(dir, c), fd, kernel.files)
      ensures fd >= 0 ==> len == |Content(kernel.files, LogPath(dir, c))|
    {
      hide OpenedAs, LogPath;
      kernel.Close(was);
      fd := kernel.OpenAppend(LogPath(dir, c));
      len := if fd >= 0 then |Content(kernel.files, LogPath(dir, c))| else 0;
    }

    /** The logger is forked with the read end of a pipe; the supervisor keeps the write end for the service. */
    method StartLogger(hasLog: bool) returns (pid: int, w: int, ghost asked: seq<Answer>)
      modifies kernel`children, kernel`answers, kernel`fds
      ensures pid > 0 ==> hasLog && pid !in old(kernel.children)
      ensures kernel.children == old(kernel.children) + Just(pid)
      ensures pid > 0 ==> w >= 0 && w !in old(kernel.fds) && kernel.fds == old(kernel.fds) + {w}
      ensures pid <= 0 ==> pid == w == -1 && kernel.fds == old(kernel.fds)
      ensures kernel.answers == old(kernel.answers) + asked && LoggerAnswers(asked, hasLog, pid)
    {
      pid, w, asked := -1, -1, [];
      if hasLog {
        var executable := kernel.Access();
        asked := [Executable(executable)];
        if executable {
          var readEnd, writeEnd := NewPipe(kernel);
          asked := asked + [Piped(readEnd != null)];
          if readEnd != null {
            pid := kernel.Fork();
            asked := asked + [Forked(pid)];
            if pid > 0 {
              w := writeEnd.IntoRaw();
            } else {
              pid := -1;
            }
            writeEnd.Drop(kernel);
            readEnd.Drop(kernel);
          }
        }
      }
    }

    /** Two pipes, or none left open. */
    method OpenPipes() returns (ok: bool, outR: int, outW: int, errR: int, errW: int, ghost asked: seq<Answer>)
      modifies kernel`fds, kernel`answers
      ensures ok ==> && outR >= 0 && outW >= 0 && errR >= 0 && errW >= 0
                     && outR != outW && outR != errR && outR != errW && outW != errR && outW != errW && errR != errW
                     && {outR, outW, errR, errW} !! old(kernel.fds)
                     && kernel.fds == old(kernel.fds) + {outR, outW, errR, errW}
      ensures !ok ==> kernel.fds == old(kernel.fds)
      ensures kernel.answers == old(kernel.answers) + asked
      ensures ok ==> asked == [Piped(true), Piped(true)]
      ensures !ok ==> asked == [Piped(false)] || asked == [Piped(true), Piped(false)]
    {
      ok, outR, outW, errR, errW := false, -1, -1, -1, -1;
      var outRead, outWrite := NewPipe(kernel);
      asked := [Piped(outRead != null)];
      if outRead == null {
        return;
      }
      outR := outRead.IntoRaw();
      outW := outWrite.IntoRaw();
      var errRead, errWrite := NewPipe(kernel);
      asked := asked + [Piped(errRead != null)];
      if errRead == null {
        kernel.Close(outR);
        kernel.Close(outW);
        return;
      }
      errR := errRead.IntoRaw();
      errW := errWrite.IntoRaw();
      ok := true;
    }

    /** Slot `i` is about to be launched: the table and the history are as they were in the world `v`. */
    ghost predicate LaunchFrame(w: World, h: seq<Event>, es: seq<Event>, v: World, i: nat, t: int)
      reads this, services, kernel`files
    {
      && services.Length == MAX_SERVICES && i < services.Length && Traced(w, h, es, v, kernel.files)
      && |v.svcs| == services.Length && services[..] == v.svcs
      && Due(v.svcs[i], t) && DepsSatisfied(v.svcs[i], v.svcs) && t <= Seconds(v.ms)
    }

    /**
     In the middle of launching slot `i`: its read ends are closed, `held` is open, a logger may be running, and
     the kernel has answered `heard`.
     */
    ghost predicate Launching(w: World, h: seq<Event>, es: seq<Event>, v: World, i: nat, t: int,
                              loggerPid: int, pid: int, held: set<int>, heard: seq<Answer>)
      reads this, services, kernel
    {
      && LaunchFrame(w, h, es, v, i, t) && i < |v.svcs| && Noted(heard)
      && (loggerPid > 0 ==> v.svcs[i].hasLog && loggerPid !in v.children)
      && (pid > 0 ==> pid !in v.children && pid != loggerPid)
      && kernel.children == v.children + Just(loggerPid) + Just(pid)
      && kernel.fds == v.fds - ReadEnds(v.svcs[i]) + held && held !! v.fds - ReadEnds(v.svcs[i])
      && kernel.sent == v.sent && v.ms <= kernel.ms && Seconds(kernel.ms) + RESTART_WINDOW < NEVER
    }

    lemma FrameFacts(w: World, h: seq<Event>, es: seq<Event>, v: World, i: nat, t: int)
      requires LaunchFrame(w, h, es, v, i, t)
      ensures Inv(v) && i < |v.svcs| == services.Length && services[i] == v.svcs[i]
      ensures forall f :: f in v.fds ==> f >= 0
    {
      hide Inv, Run, LegalRun, DepsSatisfied;
      OpenFds(v);
    }

    lemma FrameStart(w: World, h: seq<Event>, es: seq<Event>, i: nat, t: int)
      requires Did(w, h, es) && i < services.Length
      requires Due(services[i], t) && DepsSatisfied(services[i], services[..]) && t <= Seconds(kernel.ms)
      ensures LaunchFrame(w, h, es, Snapshot(), i, t) && Noted([])
    {
      hide Inv, Run, LegalRun, DepsSatisfied;
    }

    /** No process for slot `i`: it is tried again two seconds from now. */
    method LaunchFailed(i: nat, ghost t: int, loggerPid: int, ghost logger: seq<Answer>, ghost main: seq<Answer>,
                        ghost w: World, ghost h: seq<Event>, ghost es: seq<Event>, ghost v: World)
      returns (ghost a: Action)
      requires Launching(w, h, es, v, i, t, loggerPid, -1, {}, logger + main)
      requires LoggerAnswers(logger, v.svcs[i].hasLog, loggerPid) && MainAnswers(main, loggerPid > 0, -1, -1, -1)
      modifies services, kernel`ms, this`history
      ensures Ticks(old(kernel.ms), kernel.ms)
      ensures a.Launch? && a.t == t && a.o.pid <= 0 && a.o.loggerPid == loggerPid && Did(w, h, es + [Do(i, a)])
      ensures a.o.logger == logger && a.o.main == main
      ensures Legal(v, Do(i, a)) && Snapshot() == Step(v, Do(i, a))
    {
      hide Run, LegalRun, Logged, Taken, Refused, Asked, Inv, Handles, DistinctEnds, DepsSatisfied, LogPath;
      hide AfterLaunch, Legal, Step, LoggerAnswers, MainAnswers;
      var s := services[i];
      SlotEnds(v, i);
      var now := kernel.MonoNow();
      ghost var o := Launched(loggerPid, -1, -1, -1, -1, -1, 0, 0, logger, main);
      a := Launch(t, kernel.ms, o);
      UnpipedSlot(s, now, o);
      services[i] := s.(hasLog := loggerPid > 0,
                        logPid := if loggerPid > 0 then loggerPid else s.logPid,
                        logState := if loggerPid > 0 then Running else s.logState,
                        logStopping := s.logStopping && loggerPid <= 0,
                        pid := -1, state := Failed, restartAt := now + BACKOFF_SHORT,
                        streams := Streams(s.streams.out.(readFd := -1), s.streams.err.(readFd := -1)));
      UnpipedFds(s, now, o, v.fds);
      LaunchStep(v, i, t, kernel.ms, o);
      Record(w, h, es, v, Do(i, a));
    }

    method LaunchedLogged(i: nat, ghost t: int, loggerPid: int, pid: int, ghost logger: seq<Answer>,
                          ghost main: seq<Answer>, ghost w: World, ghost h: seq<Event>, ghost es: seq<Event>,
                          ghost v: World)
      returns (ghost a: Action)
      requires Launching(w, h, es, v, i, t, loggerPid, pid, {}, logger + main) && loggerPid > 0 && pid > 0
      requires LoggerAnswers(logger, v.svcs[i].hasLog, loggerPid) && MainAnswers(main, true, pid, -1, -1)
      modifies services, kernel`ms, this`history
      ensures Ticks(old(kernel.ms), kernel.ms)
      ensures a.Launch? && a.t == t && a.o.pid == pid && a.o.loggerPid == loggerPid && Did(w, h, es + [Do(i, a)])
      ensures a.o.logger == logger && a.o.main == main
      ensures Legal(v, Do(i, a)) && Snapshot() == Step(v, Do(i, a))
    {
      hide Run, LegalRun, Logged, Taken, Refused, Asked, Inv, Handles, DistinctEnds, DepsSatisfied, LogPath;
      hide AfterLaunch, Legal, Step, LoggerAnswers, MainAnswers;
      var s := services[i];
      SlotEnds(v, i);
      var now := kernel.MonoNow();
      ghost var o := Launched(loggerPid, pid, -1, -1, -1, -1, 0, 0, logger, main);
      a := Launch(t, kernel.ms, o);
      UnpipedSlot(s, now, o);
      services[i] := s.(hasLog := true, logPid := loggerPid, logState := Running, logStopping := false,
                        pid := pid, state := Running, startedAt := now, manualStart := false,
                        streams := Streams(s.streams.out.(readFd := -1), s.streams.err.(readFd := -1)));
      UnpipedFds(s, now, o, v.fds);
      LaunchStep(v, i, t, kernel.ms, o);
      Record(w, h, es, v, Do(i, a));
    }

    /** Both log files of a service are reopened while its new read ends are held. */
    method ReopenLogs(s: Service, outR: int, errR: int, ghost fds: set<int>)
      returns (outLog: int, outLen: nat, errLog: int, errLen: nat, ghost mid: Files)
      requires s.active && DistinctEnds(s) && Handles(s) <= fds && (forall f :: f in fds ==> f >= 0)
      requires outR >= 0 && errR >= 0 && {outR, errR} !! fds - ReadEnds(s)
      requires kernel.fds == fds - ReadEnds(s) + {outR, errR}
      modifies kernel`fds, kernel`files, kernel`refusals, kernel`answers
      ensures kernel.fds == fds - Handles(s) + {outR, errR} + NonNeg(outLog) + NonNeg(errLog)
      ensures outLog >= -1 && errLog >= -1 && outLog !in {outR, errR} && errLog !in {outR, errR}
      ensures (outLog >= 0 ==> outLog != errLog) && NonNeg(outLog) + NonNeg(errLog) !! fds - Handles(s)
      ensures kernel.answers == old(kernel.answers) + [Opened(outLog), Opened(errLog)]
      ensures kernel.refusals == old(kernel.refusals) + Flag(outLog < 0) + Flag(errLog < 0)
      ensures OpenedAs(old(kernel.files), LogPath(s.dir, Out), outLog, mid)
      ensures outLog >= 0 ==> outLen == |Content(mid, LogPath(s.dir, Out))|
      ensures OpenedAs(mid, LogPath(s.dir, Err), errLog, kernel.files)
      ensures errLog >= 0 ==> errLen == |Content(kernel.files, LogPath(s.dir, Err))|
    {
      hide Handles, DistinctEnds, LogPath, OpenedAs, Content;
      ReopenFds(s, fds, outR, errR, -1, -1);
      outLog, outLen := OpenLogFile(s.dir, Out, s.streams.out.logFd);
      mid := kernel.files;
      ReopenFds(s, fds, outR, errR, outLog, -1);
      errLog, errLen := OpenLogFile(s.dir, Err, s.streams.err.logFd);
      ReopenFds(s, fds, outR, errR, outLog, errLog);
      FreshLogs(s, fds, outR, errR, outLog, errLog);
    }

    method LaunchedPiped(i: nat, ghost t: int, pid: int, outR: int, errR: int, ghost logger: seq<Answer>,
                         ghost w: World, ghost h: seq<Event>, ghost es: seq<Event>, ghost v: World)
      returns (ghost a: Action)
      requires Launching(w, h, es, v, i, t, -1, pid, {outR, errR}, logger + [Piped(true), Piped(true), Forked(pid)])
      requires pid > 0 && outR >= 0 && errR >= 0 && outR != errR
      requires LoggerAnswers(logger, v.svcs[i].hasLog, -1)
      modifies services, kernel`ms, kernel`fds, kernel`files, kernel`refusals, kernel`answers, this`history
      ensures Ticks(old(kernel.ms), kernel.ms)
      ensures a.Launch? && a.t == t && a.o.pid == pid && a.o.loggerPid == -1 && a.o.logger == logger
      ensures LaunchOpened(old(kernel.files), old(services[i]).dir, a.o, kernel.files)
      ensures a.o.main == [Piped(true), Piped(true), Forked(pid), Opened(a.o.outLog), Opened(a.o.errLog)]
      ensures Did(w, h, es + [Do(i, a)])
      ensures Legal(v, Do(i, a)) && Snapshot() == Step(v, Do(i, a))
    {
      hide Run, LegalRun, Logged, Taken, Refused, Asked, Inv, Handles, DistinctEnds, DepsSatisfied, LogPath;
      hide AfterLaunch, Legal, Step, LegalLaunch, NonNeg, OpenedAs, Content, KeepsLogs, LoggerAnswers, MainAnswers;
      hide AskedBy, TakenBy, RefusedBy;
      var s := services[i];
      ghost var f := kernel.files;
      SlotEnds(v, i);
      var now := kernel.MonoNow();
      var outLog, outLen, errLog, errLen;
      ghost var mid;
      outLog, outLen, errLog, errLen, mid := ReopenLogs(s, outR, errR, v.fds);
      ghost var main := [Piped(true), Piped(true), Forked(pid), Opened(outLog), Opened(errLog)];
      ghost var o := Launched(-1, pid, outR, errR, outLog, errLog, outLen, errLen, logger, main);
      a := Launch(t, kernel.ms, o);
      assert LaunchOpened(f, s.dir, o, kernel.files);
      hide LaunchOpened;
      PipedSlot(s, now, o);
      services[i] := s.(hasLog := false, pid := pid, state := Running, startedAt := now, manualStart := false,
                        streams := Streams(Stream(outR, outLog, outLen, s.streams.out.rotations),
                                           Stream(errR, errLog, errLen, s.streams.err.rotations)));
      PipedFds(s, now, o, v.fds);
      NewReadEnds(s, v.fds, outR, errR);
      OpenedMain(pid, outLog, errLog);
      PipedLegal(v, s, o);
      LaunchStep(v, i, t, kernel.ms, o);
      LaunchKeepsLogs(root, v, f, i, t, kernel.ms, o, kernel.files);
      HeardPiped(Asked(history), logger, pid, outLog, errLog);
      LaunchNotes(i, a);
      RecordLogs(w, h, es, v, Do(i, a), f);
    }

    lemma LaunchNotes(i: nat, a: Action)
      requires a.Launch? && Direct(a.o)
      ensures var e := Do(i, a);
              && TakenBy(e) == [] && RefusedBy(e) == Flag(a.o.outLog < 0) + Flag(a.o.errLog < 0)
              && AskedBy(e) == a.o.logger + a.o.main
    {
    }

    lemma HeardPiped(was: seq<Answer>, logger: seq<Answer>, pid: int, outLog: int, errLog: int)
      ensures was + (logger + [Piped(true), Piped(true), Forked(pid)]) + [Opened(outLog), Opened(errLog)]
           == was + (logger + [Piped(true), Piped(true), Forked(pid), Opened(outLog), Opened(errLog)])
    {
    }

    /** `start_service` when the service has no logger: two pipes, then the main process. */
    method StartPiped(i: nat, t: int, ghost logger: seq<Answer>, ghost w: World, ghost h: seq<Event>,
                      ghost es: seq<Event>, ghost v: World)
      returns (ghost a: Action)
      requires Launching(w, h, es, v, i, t, -1, -1, {}, logger) && LoggerAnswers(logger, v.svcs[i].hasLog, -1)
      modifies services, kernel, this`history
      ensures Ticks(old(kernel.ms), kernel.ms)
      ensures a.Launch? && a.t == t && a.o.loggerPid == -1 && a.o.logger == logger
      ensures if Direct(a.o) then LaunchOpened(old(kernel.files), old(services[i]).dir, a.o, kernel.files)
              else kernel.files == old(kernel.files)
      ensures Did(w, h, es + [Do(i, a)])
      ensures Legal(v, Do(i, a)) && Snapshot() == Step(v, Do(i, a))
    {
      hide LaunchFrame, Inv, DepsSatisfied, Step, Legal, Did, LaunchOpened, Due, LoggerAnswers, MainAnswers, Asked;
      ghost var was := Asked(history);
      FrameFacts(w, h, es, v, i, t);
      var ok, outR, outW, errR, errW;
      ghost var asked;
      ok, outR, outW, errR, errW, asked := OpenPipes();
      assert was + logger + asked == was + (logger + asked);
      if !ok {
        NoPipes(asked, -1, -1, -1);
        a := LaunchFailed(i, t, -1, logger, asked, w, h, es, v);
        return;
      }
      var pid := kernel.Fork();
      asked := asked + [Forked(pid)];
      assert asked == [Piped(true), Piped(true), Forked(pid)];
      assert was + (logger + [Piped(true), Piped(true)]) + [Forked(pid)] == was + (logger + asked);
      kernel.Close(outW);
      kernel.Close(errW);
      KeptPipeEnds(v.fds - ReadEnds(services[i]), outR, outW, errR, errW);
      if pid > 0 {
        a := LaunchedPiped(i, t, pid, outR, errR, logger, w, h, es, v);
      } else {
        kernel.Close(outR);
        kernel.Close(errR);
        PipedMain(pid, -1, -1, -1);
        a := LaunchFailed(i, t, -1, logger, asked, w, h, es, v);
      }
    }

    /** `start_service` when the logger runs: the service writes to the pipe `w0`. */
    method StartLogged(i: nat, t: int, loggerPid: int, w0: int, ghost logger: seq<Answer>, ghost w: World,
                       ghost h: seq<Event>, ghost es: seq<Event>, ghost v: World)
      returns (ghost a: Action)
      requires Launching(w, h, es, v, i, t, loggerPid, -1, {w0}, logger) && loggerPid > 0 && w0 >= 0
      requires LoggerAnswers(logger, v.svcs[i].hasLog, loggerPid)
      modifies services, kernel`fds, kernel`children, kernel`answers, kernel`ms, this`history
      ensures Ticks(old(kernel.ms), kernel.ms)
      ensures a.Launch? && a.t == t && a.o.loggerPid == loggerPid && a.o.logger == logger
      ensures Did(w, h, es + [Do(i, a)])
      ensures Legal(v, Do(i, a)) && Snapshot() == Step(v, Do(i, a))
    {
      hide LaunchFrame, Inv, DepsSatisfied, Step, Legal, Did, Due, LoggerAnswers, MainAnswers, Asked, Handles;
      ghost var was := Asked(history);
      FrameFacts(w, h, es, v, i, t);
      var pid := kernel.Fork();
      ghost var main := [Forked(pid)];
      assert was + logger + main == was + (logger + main);
      kernel.Close(w0);
      if pid > 0 {
        LoggedMain(pid, pid);
        a := LaunchedLogged(i, t, loggerPid, pid, logger, main, w, h, es, v);
      } else {
        LoggedMain(pid, -1);
        a := LaunchFailed(i, t, loggerPid, logger, main, w, h, es, v);
      }
    }

    /** `start_service`: whatever fails on the way, no descriptor leaks and none is closed twice. */
    method StartService(i: nat, t: int, ghost w: World, ghost h: seq<Event>, ghost es: seq<Event>)
      returns (ghost a: Action)
      requires Did(w, h, es) && i < services.Length
      requires Due(services[i], t) && DepsSatisfied(services[i], services[..]) && t <= Seconds(kernel.ms)
      modifies services, kernel, this`history
      ensures Ticks(old(kernel.ms), kernel.ms)
      ensures a.Launch? && kernel.answers == old(kernel.answers) + (a.o.logger + a.o.main)
      ensures LaunchAnswers(old(services[i].hasLog), a.o)
      ensures if Direct(a.o) then LaunchOpened(old(kernel.files), old(services[i]).dir, a.o, kernel.files)
              else kernel.files == old(kernel.files)
      ensures a.t == t && Did(w, h, es + [Do(i, a)])
      ensures Legal(old(Snapshot()), Do(i, a)) && Snapshot() == Step(old(Snapshot()), Do(i, a))
    {
      hide LaunchFrame, Inv, Run, LegalRun, Logged, Taken, Refused, Asked, DepsSatisfied, Step, Legal, LaunchOpened;
      hide LoggerAnswers, MainAnswers, LaunchAnswers, Traced, AskedBy, Deaf, Handles;
      ghost var v, was := Snapshot(), kernel.answers;
      var s := services[i];
      FrameStart(w, h, es, i, t);
      TracedNow(w, h, es);
      HeldReads(v, i);
      kernel.Close(s.streams.out.readFd);
      kernel.Close(s.streams.err.readFd);
      var loggerPid, w0;
      ghost var logger;
      loggerPid, w0, logger := StartLogger(s.hasLog);
      if loggerPid > 0 {
        a := StartLogged(i, t, loggerPid, w0, logger, w, h, es, v);
      } else {
        a := StartPiped(i, t, logger, w, h, es, v);
      }
      AskedNow(w, h, es, Do(i, a), was);
      LaunchHeard(v, i, a);
    }

    lemma LaunchHeard(v: World, i: nat, a: Action)
      requires Legal(v, Do(i, a)) && a.Launch?
      ensures i < |v.svcs| && LaunchAnswers(v.svcs[i].hasLog, a.o) && AskedBy(Do(i, a)) == a.o.logger + a.o.main
    {
      hide LaunchAnswers, Handles, DepsSatisfied;
      assert LegalLaunch(v, v.svcs[i], a.o);
    }

    lemma HeldReads(v: World, i: nat)
      requires Inv(v) && i < |v.svcs| && v.svcs[i].active
      ensures forall f :: f in ReadEnds(v.svcs[i]) && f >= 0 ==> f in v.fds
      ensures v.svcs[i].streams.out.readFd >= 0 ==> v.svcs[i].streams.out.readFd != v.svcs[i].streams.err.readFd
      ensures forall f :: f in v.fds ==> f >= 0
    {
      assert DistinctEnds(v.svcs[i]) && Handles(v.svcs[i]) <= v.fds;
      HandlesOf(v.svcs[i]);
      DistinctEndsOf(v.svcs[i]);
      OpenFds(v);
    }

    /** The dependencies of a due service are not all running: look again in a second. */
    method DeferStart(i: nat, ghost t: int, ghost w: World, ghost h: seq<Event>, ghost es: seq<Event>)
      returns (ghost a: Action)
      requires Did(w, h, es) && i < services.Length
      requires Due(services[i], t) && !DepsSatisfied(services[i], services[..]) && t <= Seconds(kernel.ms)
      modifies services, kernel`ms, this`history
      ensures Ticks(old(kernel.ms), kernel.ms)
      ensures a.Defer? && a.t == t && Did(w, h, es + [Do(i, a)])
      ensures Legal(old(Snapshot()), Do(i, a)) && Snapshot() == Step(old(Snapshot()), Do(i, a))
    {
      hide Run, LegalRun, Logged, Taken, Refused, Asked, SlotOk, ProcLedger, Handles, DepsSatisfied;
      ghost var v := Snapshot();
      var now := kernel.MonoNow();
      a := Defer(t, kernel.ms);
      services[i] := services[i].(restartAt := now + 1);
      SameFds(v, i, services[i]);
      Record(w, h, es, v, Do(i, a));
    }

    /** What the start pass does about slot `i`. */
    method StartOrDefer(i: nat, t: int, ghost w: World, ghost h: seq<Event>, ghost es: seq<Event>)
      returns (ghost a: Action)
      requires Did(w, h, es) && i < services.Length && Due(services[i], t) && t <= Seconds(kernel.ms)
      modifies services, kernel, this`history
      ensures Ticks(old(kernel.ms), kernel.ms)
      ensures (a.Launch? && a.t == t) || (a.Defer? && a.t == t)
      ensures kernel.answers == old(kernel.answers) + AskedBy(Do(i, a))
      ensures Did(w, h, es + [Do(i, a)]) && t <= Seconds(kernel.ms)
      ensures Legal(old(Snapshot()), Do(i, a)) && Snapshot() == Step(old(Snapshot()), Do(i, a))
      ensures forall j :: 0 <= j < services.Length && j != i ==> services[j] == old(services[j])
    {
      hide Run, LegalRun, Logged, Taken, Refused, Asked, SlotOk, ProcLedger, Handles, DepsSatisfied, LaunchAnswers;
      ghost var v := Snapshot();
      var up := AllDepsUp(services[i]);
      if up {
        a := StartService(i, t, w, h, es);
      } else {
        a := DeferStart(i, t, w, h, es);
      }
      LaterAfter(v, i, a);
      forall j | 0 <= j < services.Length && j != i ensures services[..][j] == v.svcs[j] {
        ElsewhereSame(v, Do(i, a), j);
      }
    }

    lemma LaterAfter(v: World, i: nat, a: Action)
      requires Legal(v, Do(i, a)) && (a.Launch? || a.Defer?)
      ensures Step(v, Do(i, a)).ms == a.at >= v.ms
    {
      hide Handles, SlotAfter, DepsSatisfied, LegalLaunch;
    }

    /** The start pass of the main loop. */
    method StartPass(t: int, ghost w: World, ghost h: seq<Event>, ghost es: seq<Event>)
      returns (ghost steps: seq<Event>)
      requires Did(w, h, es) && t <= Seconds(kernel.ms)
      modifies services, kernel, this`history
      ensures Ticks(old(kernel.ms), kernel.ms)
      ensures IsPass(old(Snapshot()), t, steps) && Run(old(Snapshot()), steps) == Snapshot()
      ensures forall i :: 0 <= i < services.Length ==>
                (About(steps, i) <==> ReadyToStart(old(services[i]), t))
      ensures Did(w, h, es + steps) && kernel.answers == old(kernel.answers) + Asked(steps)
    {
      hide Did, Valid, Step, Legal, LegalRun, Run, Asked, AskedBy, Traced;
      ghost var v, was := Snapshot(), kernel.answers;
      TracedNow(w, h, es);
      steps := [];
      assert es + [] == es;
      assert LegalRun(v, []) && Run(v, []) == v by { EmptyRun(v); }
      for i := 0 to services.Length
        invariant t <= Seconds(kernel.ms) && Ticks(old(kernel.ms), kernel.ms)
        invariant LegalRun(v, steps) && Run(v, steps) == Snapshot() && Picks(v.svcs, t, i, steps)
        invariant forall j :: i <= j < services.Length ==> services[j] == v.svcs[j]
        invariant Did(w, h, es + steps)
      {
        var s := services[i];
        if s.active && s.present && !s.stopping && s.pid <= 0 && t >= s.restartAt
           && (s.manualStart || (s.autoStart && !s.once)) {
          ghost var a := StartOrDefer(i, t, w, h, es + steps);
          RunSnoc(v, steps, Do(i, a));
          assert (steps + [Do(i, a)])[..|steps|] == steps;
          assert es + (steps + [Do(i, a)]) == es + steps + [Do(i, a)];
          steps := steps + [Do(i, a)];
        }
      }
      AskedSince(w, h, es, steps, was);
      forall i | 0 <= i < services.Length ensures About(steps, i) <==> ReadyToStart(v.svcs[i], t) {
        PassIsAbout(v.svcs, t, |v.svcs|, steps, i);
      }
    }

    // -------------------------------------------------------------- draining and logging

    /** One step on one stream of slot `i`. */
    ghost predicate Streamed(i: nat, c: Channel, w: World, h: seq<Event>, es: seq<Event>, v: World, op: StreamOp)
      reads this, services, kernel
    {
      Did(w, h, es + [Do(i, Io(c, op))]) && Legal(v, Do(i, Io(c, op))) && Snapshot() == Step(v, Do(i, Io(c, op)))
    }

    method CloseReadEnd(i: nat, c: Channel, ghost w: World, ghost h: seq<Event>, ghost es: seq<Event>)
      requires Did(w, h, es) && i < services.Length && services[i].active && services[i].streams.At(c).readFd >= 0
      modifies services, kernel`fds, this`history
      ensures Streamed(i, c, w, h, es, old(Snapshot()), CloseRead)
      ensures services[i] == IoAfter(old(services[i]), c, CloseRead)
      ensures services[..] == old(services[..])[i := services[i]]
    {
      hide Run, LegalRun, Logged, Taken, Refused, Asked, SlotOk, ProcLedger, Handles;
      ghost var v := Snapshot();
      var s := services[i];
      EndHeld(v, i, End(c, false));
      kernel.Close(s.streams.At(c).readFd);
      services[i] := s.(streams := s.streams.Set(c, s.streams.At(c).(readFd := -1)));
      EndGone(v, i, c, CloseRead, End(c, false));
      Record(w, h, es, v, Do(i, Io(c, CloseRead)));
    }

    /** The data `b` has just been appended to the log of channel `c` of slot `i`, which is not yet accounted for. */
    ghost predicate Writing(i: nat, c: Channel, b: Text, w: World, h: seq<Event>, es: seq<Event>, f: Files)
      reads this, services, kernel`children, kernel`fds, kernel`ms, kernel`sent, kernel`files, kernel`received
      reads kernel`answers
    {
      && services.Length == MAX_SERVICES && Seconds(kernel.ms) + RESTART_WINDOW < NEVER
      && i < services.Length && services[i].active && services[i].streams.At(c).logFd >= 0
      && Traced(w, h, es, Snapshot(), f) && kernel.files == Appended(f, services[i].streams.At(c).logFd, b)
      && kernel.received == Taken(history) && kernel.answers == Asked(history)
    }

    lemma TracedNow(w: World, h: seq<Event>, es: seq<Event>)
      requires Did(w, h, es)
      ensures services.Length == MAX_SERVICES && Seconds(kernel.ms) + RESTART_WINDOW < NEVER
      ensures Traced(w, h, es, Snapshot(), kernel.files) && Noted([]) && history == h + es
    {
      hide Run, LegalRun, Logged, Taken, Refused, Asked, Inv;
    }

    /** A write has failed after `b`. */
    method CloseLogEnd(i: nat, c: Channel, ghost b: Text, ghost f: Files, ghost w: World, ghost h: seq<Event>,
                       ghost es: seq<Event>)
      requires Writing(i, c, b, w, h, es, f) && kernel.refusals == Refused(history) + 1
      modifies services, kernel`fds, this`history
      ensures Streamed(i, c, w, h, es, old(Snapshot()), CloseLog(b))
      ensures services[i] == IoAfter(old(services[i]), c, CloseLog(b))
      ensures services[..] == old(services[..])[i := services[i]]
    {
      hide Run, LegalRun, Logged, Taken, Refused, Asked, SlotOk, ProcLedger, Handles, KeepsLogs, Appended;
      ghost var v := Snapshot();
      var s := services[i];
      EndHeld(v, i, End(c, true));
      kernel.Close(s.streams.At(c).logFd);
      services[i] := s.(streams := s.streams.Set(c, s.streams.At(c).(logFd := -1)));
      EndGone(v, i, c, CloseLog(b), End(c, true));
      assert Legal(v, Do(i, Io(c, CloseLog(b))));
      WriteKeeps(root, v, f, i, c, CloseLog(b));
      RecordLogs(w, h, es, v, Do(i, Io(c, CloseLog(b))), f);
    }

    /** All of `data` has been written. */
    method GrowLog(i: nat, c: Channel, data: Text, ghost f: Files, ghost w: World, ghost h: seq<Event>,
                   ghost es: seq<Event>)
      requires Writing(i, c, data, w, h, es, f) && kernel.refusals == Refused(history)
      modifies services, this`history
      ensures Streamed(i, c, w, h, es, old(Snapshot()), Wrote(data))
      ensures services[i] == IoAfter(old(services[i]), c, Wrote(data))
      ensures services[..] == old(services[..])[i := services[i]]
    {
      hide Run, LegalRun, Logged, Taken, Refused, Asked, SlotOk, ProcLedger, Handles, KeepsLogs, Appended;
      ghost var v := Snapshot();
      var s := services[i];
      services[i] := s.(streams := s.streams.Set(c, s.streams.At(c).(logLen := s.streams.At(c).logLen + |data|)));
      SameEnds(s, c, Wrote(data));
      SameFds(v, i, services[i]);
      assert Legal(v, Do(i, Io(c, Wrote(data))));
      WriteKeeps(root, v, f, i, c, Wrote(data));
      RecordLogs(w, h, es, v, Do(i, Io(c, Wrote(data))), f);
    }

    lemma ReadStep(v: World, i: nat, c: Channel, r: Chunk)
      requires Inv(v) && i < |v.svcs| && v.svcs[i].active && v.svcs[i].streams.At(c).readFd >= 0
      ensures var e := Do(i, Io(c, Took(r))); Legal(v, e) && Step(v, e) == v && Inert(e)
    {
      hide Handles, SlotOk, ProcLedger;
      var s := v.svcs[i];
      ReadSlot(s, c, r);
      hide IoAfter;
      SameFds(v, i, s);
      assert v.svcs[i := s] == v.svcs;
    }

    lemma ReadSlot(s: Service, c: Channel, r: Chunk)
      ensures IoAfter(s, c, Took(r)) == s
    {
    }

    /** A read on the stream has returned `r`. */
    ghost method NoteRead(i: nat, c: Channel, r: Chunk, w: World, h: seq<Event>, es: seq<Event>)
      requires services.Length == MAX_SERVICES && Seconds(kernel.ms) + RESTART_WINDOW < NEVER
      requires Traced(w, h, es, Snapshot(), kernel.files)
      requires kernel.received == Taken(history) + [r] && kernel.refusals == Refused(history)
      requires kernel.answers == Asked(history)
      requires i < services.Length && services[i].active && services[i].streams.At(c).readFd >= 0
      modifies this`history
      ensures Did(w, h, es + [Do(i, Io(c, Took(r)))])
    {
      hide Run, LegalRun, Logged, Taken, Refused, Asked, SlotOk, ProcLedger, Handles, Inert, Legal, Step, KeepsLogs;
      var v := Snapshot();
      ReadStep(v, i, c, r);
      InertKeeps(root, v, kernel.files, Do(i, Io(c, Took(r))));
      RecordLogs(w, h, es, v, Do(i, Io(c, Took(r))), kernel.files);
    }

    /** The file side of `open_log`, and of `rotate_log` when `rotate` is set. */
    method SwapLogFile(dir: Text, c: Channel, was: int, rotate: bool, ts: nat, rotations: nat)
      returns (fd: int, len: nat)
      requires was >= 0 ==> was in kernel.fds
      modifies kernel`fds, kernel`files, kernel`refusals, kernel`answers
      ensures kernel.answers == old(kernel.answers) + [Opened(fd)]
      ensures fd >= -1 && (fd >= 0 ==> fd !in old(kernel.fds) - {was}) && (fd < 0 ==> len == 0)
      ensures kernel.fds == old(kernel.fds) - {was} - {-1} + NonNeg(fd)
      ensures kernel.refusals == old(kernel.refusals) + Flag(fd < 0)
      ensures LogReopened(old(kernel.files), dir, c, fd, len, kernel.files)
    {
      hide LogPath, RotatedFrom, RotatedTo, OpenedAs, RenamedAs, Content;
      kernel.Close(was);
      if rotate {
        kernel.Rename(RotatedFrom(dir, c), RotatedTo(dir, c, ts, rotations));
      }
      ghost var mid := kernel.files;
      fd, len := OpenLogFile(dir, c, -1);
      assert Moved(old(kernel.files), dir, c, mid) && OpenedAs(mid, LogPath(dir, c), fd, kernel.files);
    }

    /** The stream takes its new log file. */
    method StoreLog(i: nat, c: Channel, fd: int, len: nat, rotate: bool, ghost f: Files,
                    ghost w: World, ghost h: seq<Event>, ghost es: seq<Event>, ghost v: World)
      requires services.Length == MAX_SERVICES && Seconds(kernel.ms) + RESTART_WINDOW < NEVER
      requires Traced(w, h, es, v, f)
      requires i < services.Length && services[i].active && fd >= -1 && (fd < 0 ==> len == 0)
      requires fd >= 0 ==> fd !in v.fds - {services[i].streams.At(c).logFd}
      requires v == World(services[..], kernel.children, v.fds, kernel.ms, kernel.sent)
      requires kernel.fds == v.fds - {services[i].streams.At(c).logFd} - {-1} + NonNeg(fd)
      requires LogReopened(f, services[i].dir, c, fd, len, kernel.files)
      requires kernel.received == Taken(history) && kernel.refusals == Refused(history) + Flag(fd < 0)
      requires kernel.answers == Asked(history) + [Opened(fd)]
      modifies services, this`history
      ensures Streamed(i, c, w, h, es, v, OpenLog(fd, len, rotate))
      ensures services[i] == IoAfter(old(services[i]), c, OpenLog(fd, len, rotate))
      ensures services[..] == old(services[..])[i := services[i]]
    {
      hide Run, LegalRun, Logged, Taken, Refused, Asked, Inv, Handles, Legal, Step, Put, IoAfter;
      hide LogReopened, KeepsLogs;
      var s := services[i];
      OpenedStream(s, c, fd, len, rotate);
      services[i] := s.(streams := s.streams.Set(c, Reopened(s.streams.At(c), fd, len, rotate)));
      OpenFds(v);
      EndReopened(v, i, c, OpenLog(fd, len, rotate));
      ReopenStep(v, i, c, OpenLog(fd, len, rotate));
      ReopenKeeps(root, v, f, i, c, OpenLog(fd, len, rotate), kernel.files);
      RecordLogs(w, h, es, v, Do(i, Io(c, OpenLog(fd, len, rotate))), f);
    }

    /** `open_log`, and `rotate_log` when `rotate` is set, which closes the file and renames a path first. */
    method ReopenLog(i: nat, c: Channel, rotate: bool, ts: nat, ghost w: World, ghost h: seq<Event>,
                     ghost es: seq<Event>)
      returns (ghost op: StreamOp)
      requires Did(w, h, es) && i < services.Length && services[i].active
      modifies services, kernel`fds, kernel`files, kernel`refusals, kernel`answers, this`history
      ensures Streamed(i, c, w, h, es, old(Snapshot()), op) && op.OpenLog? && op.rotated == rotate
      ensures services[i] == IoAfter(old(services[i]), c, op)
      ensures services[..] == old(services[..])[i := services[i]]
      ensures kernel.answers == old(kernel.answers) + [Opened(op.fd)]
      ensures kernel.refusals == old(kernel.refusals) + Flag(op.fd < 0)
      ensures LogReopened(old(kernel.files), old(services[i]).dir, c, op.fd, op.len, kernel.files)
    {
      hide Run, LegalRun, Logged, Taken, Refused, Asked, Inv, LogPath, Streamed, IoAfter, LogReopened;
      ghost var v, f := Snapshot(), kernel.files;
      var s := services[i];
      var st := s.streams.At(c);
      EndHeld(v, i, End(c, true));
      var fd, len := SwapLogFile(s.dir, c, st.logFd, rotate, ts, st.rotations + if rotate then 1 else 0);
      op := OpenLog(fd, len, rotate);
      StoreLog(i, c, fd, len, rotate, f, w, h, es, v);
    }

    function Reopened(st: Stream, fd: int, len: nat, rotated: bool): Stream {
      Stream(st.readFd, fd, len, st.rotations + if rotated then 1 else 0)
    }

    lemma OpenedStream(s: Service, c: Channel, fd: int, len: nat, rotated: bool)
      ensures var s' := s.(streams := s.streams.Set(c, Reopened(s.streams.At(c), fd, len, rotated)));
              && s' == IoAfter(s, c, OpenLog(fd, len, rotated)) && s'.dir == s.dir && s'.active == s.active
              && s'.streams.At(c).logFd == fd && s'.streams.At(c).logLen == len
    {
    }

    lemma StreamHeld(w: World, h: seq<Event>, es: seq<Event>, i: nat, e: End)
      requires Did(w, h, es) && i < services.Length && Fd(services[i], e) >= 0
      ensures Fd(services[i], e) in kernel.fds
    {
      hide Run, LegalRun, ProcLedger, SlotOk, Handles;
      EndHeld(Snapshot(), i, e);
    }

    lemma EndHeld(v: World, i: nat, e: End)
      requires Inv(v) && i < |v.svcs| && v.svcs[i].active
      ensures Fd(v.svcs[i], e) >= 0 ==> Fd(v.svcs[i], e) in v.fds
      ensures forall f :: f in v.fds ==> f >= 0
    {
      assert Handles(v.svcs[i]) <= v.fds;
      OpenFds(v);
    }

    lemma EndGone(v: World, i: nat, c: Channel, op: StreamOp, e: End)
      requires Inv(v) && i < |v.svcs| && v.svcs[i].active && Fd(v.svcs[i], e) >= 0
      requires (op == CloseRead && e == End(c, false)) || (op.CloseLog? && e == End(c, true))
      ensures Put(v, i, IoAfter(v.svcs[i], c, op)).fds == v.fds - {Fd(v.svcs[i], e)}
    {
      var s, s' := v.svcs[i], IoAfter(v.svcs[i], c, op);
      assert DistinctEnds(s) && Handles(s) <= v.fds;
      forall d ensures Fd(s', d) == if d == e then -1 else Fd(s, d) {
        IoEnds(s, c, op, d);
      }
      hide IoAfter;
      assert Handles(s') == Handles(s) - {Fd(s, e)};
    }

    lemma SameEnds(s: Service, c: Channel, op: StreamOp)
      requires op.Wrote?
      ensures forall e :: Fd(IoAfter(s, c, op), e) == Fd(s, e)
    {
      if s.active {
        forall e {
          IoEnds(s, c, op, e);
        }
      }
    }

    lemma ReopenStep(v: World, i: nat, c: Channel, op: StreamOp)
      requires i < |v.svcs| && v.svcs[i].active && op.OpenLog? && op.fd >= -1 && (op.fd < 0 ==> op.len == 0)
      requires op.fd >= 0 ==> op.fd !in v.fds - {v.svcs[i].streams.At(c).logFd}
      requires forall f :: f in v.fds ==> f >= 0
      ensures Legal(v, Do(i, Io(c, op)))
      ensures Step(v, Do(i, Io(c, op)))
           == World(v.svcs[i := IoAfter(v.svcs[i], c, op)], v.children,
                    Put(v, i, IoAfter(v.svcs[i], c, op)).fds, v.ms, v.sent)
    {
      hide Handles, IoAfter;
      assert AllowedIo(v, v.svcs[i].streams.At(c), op);
    }

    lemma EndReopened(v: World, i: nat, c: Channel, op: StreamOp)
      requires Inv(v) && i < |v.svcs| && v.svcs[i].active && op.OpenLog?
      requires op.fd >= 0 ==> op.fd !in v.fds - {v.svcs[i].streams.At(c).logFd}
      ensures Put(v, i, IoAfter(v.svcs[i], c, op)).fds
           == v.fds - {v.svcs[i].streams.At(c).logFd} - {-1} + NonNeg(op.fd)
    {
      var s, s', e := v.svcs[i], IoAfter(v.svcs[i], c, op), End(c, true);
      assert DistinctEnds(s) && Handles(s) <= v.fds;
      forall d ensures Fd(s', d) == if d == e then op.fd else Fd(s, d) {
        IoEnds(s, c, op, d);
      }
      assert Fd(s, e) == s.streams.At(c).logFd;
      hide IoAfter;
      OpenFds(v);
      assert Handles(s') == Handles(s) - {Fd(s, e)} + NonNeg(op.fd);
    }
  }
}
