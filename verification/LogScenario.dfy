/** A run from the start of the program to a service without a logger, whose logs then outgrow every bound. */
module LogScenario {
  import opened Types
  import opened KernelAnswers
  import opened Machine
  import opened Ledger
  import opened FileSystem
  import opened LogFiles
  import opened Paths
  import opened Logs
  import opened Drains

  const ROOT: Text := "r"
  const DIR: Text := "r/a"
  const REG := Registration("a", DIR, false, false, [], false)
  const OUTCOME := Launched(
    -1, 1, 3, 4, 5, 6, 0, 0, [], [Piped(true), Piped(true), Forked(1), Opened(5), Opened(6)])
  const START := [Do(0, Register(REG)), Do(0, Launch(0, 0, OUTCOME))]
  const BOOT := World(seq(MAX_SERVICES, _ => SERVICE_ZERO), {}, {}, 0, [])

  const NO_FILES := Files(map[], map[], map[])
  const ONE_LOG := Files(map[LogPath(DIR, Out) := 0], map[0 := []], map[5 := 0])
  const BOTH_LOGS := Files(
    map[LogPath(DIR, Out) := 0, LogPath(DIR, Err) := 1], map[0 := [], 1 := []], map[5 := 0, 6 := 1])

  lemma Placed()
    ensures Below(ROOT, DIR) && LogPath(DIR, Out) != LogPath(DIR, Err)
  {
    assert Slashless("a") && DIR == DirOf(ROOT, "a");
    LogsSharedIff(DIR);
  }

  lemma NewFile(f: Files, p: Text, fd: int, n: int)
    requires fd >= 0 && p !in f.names && n !in f.inodes
    ensures OpenedAs(f, p, fd, Files(f.names[p := n], f.inodes[n := []], f.target[fd := n]))
  {
  }

  lemma BothOpened()
    ensures LaunchOpened(NO_FILES, DIR, OUTCOME, BOTH_LOGS) && Plain(NO_FILES)
  {
    hide LogPath, OpenedAs;
    Placed();
    NewFile(NO_FILES, LogPath(DIR, Out), 5, 0);
    NewFile(ONE_LOG, LogPath(DIR, Err), 6, 1);
    assert OpenedAs(NO_FILES, LogPath(DIR, Out), OUTCOME.outLog, ONE_LOG);
    assert OpenedAs(ONE_LOG, LogPath(DIR, Err), OUTCOME.errLog, BOTH_LOGS);
  }

  lemma RegisterLegal()
    ensures Fresh(BOOT) && Legal(BOOT, START[0]) && Step(BOOT, START[0]).svcs[0] == Registered(REG)
    ensures var w := Step(BOOT, START[0]); w.children == {} && w.fds == {} && w.ms == 0
  {
    hide Handles;
    EmptySlots();
  }

  lemma EmptySlots()
    ensures Handles(SERVICE_ZERO) == {} && Handles(Registered(REG)) == {}
  {
    forall s, e: End | s == SERVICE_ZERO || s == Registered(REG) ensures Fd(s, e) < 0 {
      assert e.c == Out || e.c == Err;
    }
  }

  lemma LaunchLegal()
    requires Legal(BOOT, START[0])
    ensures var w := Step(BOOT, START[0]);
            Legal(w, START[1]) && Step(w, START[1]).svcs[0] == AfterLaunch(Registered(REG), 0, OUTCOME)
  {
    hide Handles, AfterLaunch;
    RegisterLegal();
    OpenedMain(1, 5, 6);
    var w := Step(BOOT, START[0]);
    assert LegalLaunch(w, w.svcs[0], OUTCOME);
  }

  lemma KeptOk(root: Text, o: World, found: Files, es: seq<Event>, f: Files)
    requires Inv(o) && LogsOk(root, o.svcs, found) && KeepsLogs(root, o, found, es, f)
    ensures LegalRun(o, es) && LogsOk(root, Run(o, es).svcs, f)
  {
    hide Inv, LogsOk, Gains;
  }

  lemma LaunchedEnds()
    ensures var s := AfterLaunch(Registered(REG), 0, OUTCOME); s.active && s.dir == DIR && s.streams.out.logFd == 5
    ensures Direct(OUTCOME)
  {
  }

  lemma BothSteps()
    ensures LegalRun(BOOT, START) && Run(BOOT, START).svcs[0] == AfterLaunch(Registered(REG), 0, OUTCOME)
    ensures KeepsLogs(ROOT, BOOT, NO_FILES, START, BOTH_LOGS)
  {
    RegisterLegal();
    LaunchLegal();
    hide Legal, Step, AfterLaunch, LogPath, LogsOk, Plain, LaunchOpened, KeepsLogs, Inv, Below;
    var w := Step(BOOT, START[0]);
    OneStep(BOOT, START[0]);
    OneStep(w, START[1]);
    assert [START[0]] + [START[1]] == START;
    RunConcat(BOOT, [START[0]], [START[1]]);
    Placed();
    RegisterKeepsLogs(ROOT, BOOT, NO_FILES, 0, REG);
    BothOpened();
    LaunchedEnds();
    LaunchKeepsLogs(ROOT, w, NO_FILES, 0, 0, 0, OUTCOME, BOTH_LOGS);
    KeepsMore(ROOT, BOOT, NO_FILES, [START[0]], NO_FILES, [START[1]], BOTH_LOGS);
  }

  /** The start leads to a service whose output is logged, with the exact length recorded. */
  lemma LogsOpened()
    ensures Fresh(BOOT) && LegalRun(BOOT, START) && KeepsLogs(ROOT, BOOT, NO_FILES, START, BOTH_LOGS)
    ensures OpenLogged(ROOT, Run(BOOT, START), BOTH_LOGS, 0, Out)
    ensures Run(BOOT, START).svcs[0].dir == DIR
  {
    RegisterLegal();
    hide Legal, Step, AfterLaunch, LogPath, LogsOk, Plain, KeepsLogs, Inv, LegalRun, Run, Fresh;
    BothSteps();
    LaunchedEnds();
    BothOpened();
    LoggedFresh(ROOT, BOOT, NO_FILES);
    RunKeeps(BOOT, START);
    KeptOk(ROOT, BOOT, NO_FILES, START, BOTH_LOGS);
    Placed();
  }

  /**
   From the start of the program, for every size there is a legal run after which the log of the service is larger:
   calls of `write_log`, none of them refused, that rotate whenever the limit of 1 MiB is reached.
   */
  lemma LogOutgrows(data: Text, n: nat) returns (calls: seq<seq<Event>>, g: Files)
    requires data != []
    ensures Fresh(BOOT) && LegalRun(BOOT, START) && WriteCalls(Run(BOOT, START), 0, Out, data, calls)
    ensures LegalRun(BOOT, START + Joined(calls))
    ensures KeepsLogs(ROOT, BOOT, NO_FILES, START + Joined(calls), g) && |Content(g, LogPath(DIR, Out))| >= n
  {
    hide LegalRun, Run, Fresh, LogPath, LogsOk, KeepsLogs, Inv, OpenLogged, WriteCalls, Content;
    LogsOpened();
    calls, g := LogUnbounded(ROOT, Run(BOOT, START), BOTH_LOGS, 0, Out, data, n);
    RunConcat(BOOT, START, Joined(calls));
    KeepsMore(ROOT, BOOT, NO_FILES, START, BOTH_LOGS, Joined(calls), g);
  }
}
