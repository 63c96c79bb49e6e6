/**
 The supervisor as a state machine. A `World` is the service table together with what the kernel keeps
 for the supervisor; an `Event` is one indivisible change the program makes to it. `Legal` says when the
 code makes that change and what answers the kernel may give; everything else about the kernel is arbitrary.
 */
module Machine {
  import opened Types
  import opened KernelAnswers

  datatype Signal = Signal(pid: int, sig: int, group: bool)

  /** children: forked and not yet waited for; fds: open service descriptors; ms: the monotonic clock. */
  datatype World = World(
    svcs: seq<Service>, children: set<int>, fds: set<int>, ms: int, sent: seq<Signal>)

  datatype Cause = LostDependency | LostLogger | Removed | Halt

  /** What a launch has obtained, -1 for what it has not, and the answers about the logger and about the rest. */
  datatype Launched = Launched(
    loggerPid: int, pid: int,
    outRead: int, errRead: int, outLog: int, errLog: int, outLen: nat, errLen: nat,
    logger: seq<Answer>, main: seq<Answer>)

  /** What a directory scan reads about a service it has not seen before. */
  datatype Registration = Registration(
    name: Text, dir: Text, down: bool, once: bool, deps: seq<Dependency>, hasLog: bool)

  /** An operator's command, once its service has been found. */
  datatype Command = Start | Stop | Restart | GoDown | GoUp(at: int) | Once | Send(sig: int)

  /** The result of one `read`: between 1 and 4096 bytes, the end of the stream, nothing for now, or an error. */
  datatype Chunk = Data(b: Text) | Eof | Again | Broken

  /** What draining does to one stream. A log is closed when a write has failed after `b`. */
  datatype StreamOp =
    | Took(r: Chunk)
    | CloseRead
    | OpenLog(fd: int, len: nat, rotated: bool)
    | Wrote(b: Text)
    | CloseLog(b: Text)

  /** What can happen to one slot. */
  datatype Action =
    | Terminate(cause: Cause)
    | TerminateLogger
    | Defer(t: int, at: int)
    | Launch(t: int, at: int, o: Launched)
    | Cmd(cmd: Command)
    | Io(c: Channel, op: StreamOp)
    | ScanSeen
    | Register(r: Registration)
    | Free
    | KillMain
    | KillLogger
    | Finalize

  /**
   A child has been waited for, and `asked` are the answers about a finish script; `Idle`: there was none to wait
   for; `Script`: a check script has been looked for and run to its end.
   */
  datatype Event =
    | Tick(at: int)
    | Reap(pid: int, status: int, at: int, finish: int, asked: seq<Answer>)
    | Idle(pid: int)
    | Script(asked: seq<Answer>)
    | ScanOpen
    | Do(i: nat, a: Action)

  // ---------------------------------------------------------------- one slot

  function Seconds(ms: int): int {
    ms / 1000
  }

  /** `decode_wait_status`, the state part. */
  function Decode(status: int): State {
    if status % 128 == 0 then Exited
    else if status % 128 == 127 then Down
    else Signaled
  }

  function Delay(restarts: nat): int {
    if restarts < 5 then BACKOFF_SHORT
    else if restarts < 20 then BACKOFF_MED
    else BACKOFF_LONG
  }

  /** An exit counts toward the restart limit unless it was asked for or the service runs once. */
  predicate Counted(s: Service) {
    !s.stopping && !s.once
  }

  predicate LongRun(s: Service, t: int) {
    t - s.startedAt > RESTART_WINDOW
  }

  predicate StopsLogger(s: Service, status: int) {
    s.logPid > 0 && (s.stopping || Decode(status) == Down)
  }

  function RestartsAfter(s: Service, t: int): nat {
    if !Counted(s) then s.restarts
    else if LongRun(s, t) then 0
    else s.restarts + 1
  }

  /** The circuit breaker: one restart too many without a long run in between. */
  predicate Tripped(s: Service, t: int) {
    Counted(s) && RestartsAfter(s, t) > MAX_RESTARTS
  }

  function AfterExit(s: Service, status: int, t: int): Service {
    s.(pid := -1,
       state := if Tripped(s, t) then Failed else Decode(status),
       logStopping := s.logStopping || StopsLogger(s, status),
       once := false,
       restarts := RestartsAfter(s, t),
       restartAt := if !Counted(s) || Tripped(s, t) then NEVER else t + Delay(RestartsAfter(s, t)))
  }

  function AfterLoggerExit(s: Service): Service {
    s.(logPid := -1, logState := Down, logStopping := false)
  }

  function Stopped(s: Service): Service {
    s.(stopping := true, state := Stopping)
  }

  function LoggerStopped(s: Service): Service {
    s.(logStopping := s.logStopping || s.logPid > 0)
  }

  function AfterLaunch(s: Service, t: int, o: Launched): Service {
    var up, piped := o.pid > 0, o.pid > 0 && o.loggerPid <= 0;
    s.(hasLog := o.loggerPid > 0,
       logPid := if o.loggerPid > 0 then o.loggerPid else s.logPid,
       logState := if o.loggerPid > 0 then Running else s.logState,
       logStopping := o.loggerPid <= 0 && s.logStopping,
       pid := if up then o.pid else -1,
       state := if up then Running else Failed,
       startedAt := if up then t else s.startedAt,
       manualStart := !up && s.manualStart,
       restartAt := if up then s.restartAt else t + BACKOFF_SHORT,
       streams := Streams(
         Stream(o.outRead, if piped then o.outLog else s.streams.out.logFd,
                if piped then o.outLen else s.streams.out.logLen, s.streams.out.rotations),
         Stream(o.errRead, if piped then o.errLog else s.streams.err.logFd,
                if piped then o.errLen else s.streams.err.logLen, s.streams.err.rotations)))
  }

  function Registered(r: Registration): Service {
    SERVICE_EMPTY.(active := true, present := true, name := r.name, dir := r.dir,
                   autoStart := !r.down, once := r.once, deps := r.deps, hasLog := r.hasLog)
  }

  function StreamAfter(st: Stream, op: StreamOp): Stream {
    match op
    case Took(_) => st
    case CloseRead => st.(readFd := -1)
    case OpenLog(fd, len, rotated) => Stream(st.readFd, fd, len, st.rotations + if rotated then 1 else 0)
    case Wrote(b) => st.(logLen := st.logLen + |b|)
    case CloseLog(_) => st.(logFd := -1)
  }

  function IoAfter(s: Service, c: Channel, op: StreamOp): Service {
    s.(streams := s.streams.Set(c, StreamAfter(s.streams.At(c), op)))
  }

  function CommandAfter(s: Service, c: Command): Service {
    match c
    case Start => s.(manualStart := true, restartAt := 0, stopping := false)
    case Stop => LoggerStopped(Stopped(s))
    case Restart => LoggerStopped(Stopped(s)).(manualStart := true)
    case GoDown =>
      s.(autoStart := false,
         stopping := s.stopping || s.pid > 0,
         state := if s.pid > 0 then Stopping else s.state,
         logStopping := s.logStopping || (s.pid > 0 && s.logPid > 0))
    case GoUp(at) => s.(autoStart := true, restartAt := Seconds(at), stopping := false)
    case Once => s.(once := true)
    case Send(_) => s
  }

  function WithoutFds(s: Service): Service {
    s.(streams := Streams(s.streams.out.(readFd := -1, logFd := -1), s.streams.err.(readFd := -1, logFd := -1)))
  }

  function Finalized(s: Service): Service {
    WithoutFds(s).(pid := -1, logPid := -1, state := Down, logState := Down)
  }

  // ---------------------------------------------------------------- who holds what

  datatype Role = Main | Logger

  /** The child process slot `s` holds in role `r`; -1 for none. */
  function Proc(s: Service, r: Role): int {
    if !s.active then -1 else if r == Main then s.pid else s.logPid
  }

  datatype End = End(c: Channel, log: bool)

  /** The descriptor slot `s` holds at end `e`; -1 for none. */
  function Fd(s: Service, e: End): int {
    if !s.active then -1 else if e.log then s.streams.At(e.c).logFd else s.streams.At(e.c).readFd
  }

  function Handles(s: Service): (hs: set<int>)
    ensures forall f :: f in hs <==> f >= 0 && exists e :: Fd(s, e) == f
  {
    var all := {Fd(s, End(Out, false)), Fd(s, End(Out, true)), Fd(s, End(Err, false)), Fd(s, End(Err, true))};
    var hs := set f | f in all && f >= 0;
    assert forall e :: Fd(s, e) in all by {
      forall e ensures Fd(s, e) in all {
        var End(c, log) := e;
        assert c == Out || c == Err;
        assert e == End(c, true) || e == End(c, false);
      }
    }
    hs
  }

  /** The first active slot whose logger is `pid`. */
  function LoggerOf(svcs: seq<Service>, pid: int): (k: Option<nat>)
    ensures k.Some? ==> k.value < |svcs| && svcs[k.value].active && svcs[k.value].logPid == pid
    ensures k.Some? ==> forall j :: 0 <= j < k.value ==> !(svcs[j].active && svcs[j].logPid == pid)
    ensures k.None? ==> forall j :: 0 <= j < |svcs| ==> !(svcs[j].active && svcs[j].logPid == pid)
  {
    if svcs == [] then None
    else
      var k := LoggerOf(svcs[..|svcs| - 1], pid);
      if k.Some? then k
      else if svcs[|svcs| - 1].active && svcs[|svcs| - 1].logPid == pid then Some(|svcs| - 1)
      else None
  }

  /** The first active slot whose main process is `pid`. */
  function MainOf(svcs: seq<Service>, pid: int): (k: Option<nat>)
    ensures k.Some? ==> k.value < |svcs| && svcs[k.value].active && svcs[k.value].pid == pid
    ensures k.Some? ==> forall j :: 0 <= j < k.value ==> !(svcs[j].active && svcs[j].pid == pid)
    ensures k.None? ==> forall j :: 0 <= j < |svcs| ==> !(svcs[j].active && svcs[j].pid == pid)
  {
    if svcs == [] then None
    else
      var k := MainOf(svcs[..|svcs| - 1], pid);
      if k.Some? then k
      else if svcs[|svcs| - 1].active && svcs[|svcs| - 1].pid == pid then Some(|svcs| - 1)
      else None
  }

  // ---------------------------------------------------------------- when a step is taken

  predicate Later(w: World, at: int) {
    w.ms <= at && Seconds(at) + RESTART_WINDOW < NEVER
  }

  /** The start pass considers the slot at loop time `t`. */
  predicate Due(s: Service, t: int) {
    && s.active && s.present && !s.stopping && s.pid <= 0 && t >= s.restartAt
    && (s.manualStart || (s.autoStart && !s.once))
  }

  /** A running service that some hard dependency has left behind. */
  predicate Stranded(svcs: seq<Service>, i: nat)
    requires i < |svcs|
  {
    var s := svcs[i];
    s.active && !s.stopping && s.pid > 0 && s.state == Running && !DepsSatisfied(s, svcs)
  }

  predicate MayTerminate(svcs: seq<Service>, i: nat, cause: Cause)
    requires i < |svcs|
  {
    var s := svcs[i];
    match cause
    case LostDependency => Stranded(svcs, i)
    case LostLogger => s.active && s.hasLog && s.logPid <= 0 && s.pid > 0 && !s.stopping && s.state == Running
    case Removed => s.active && !s.present && s.pid > 0
    case Halt => s.active && s.pid > 0
  }

  /** The outcome of a launch is what the kernel's answers make of it. */
  predicate LaunchAnswers(hasLog: bool, o: Launched) {
    LoggerAnswers(o.logger, hasLog, o.loggerPid) && MainAnswers(o.main, o.loggerPid > 0, o.pid, o.outLog, o.errLog)
  }

  predicate LegalLaunch(w: World, s: Service, o: Launched) {
    && LaunchAnswers(s.hasLog, o)
    && (o.loggerPid > 0 ==> s.hasLog && o.loggerPid !in w.children)
    && (o.pid > 0 ==> o.pid !in w.children && o.pid != o.loggerPid)
    && if o.pid > 0 && o.loggerPid <= 0 then
         && o.outRead >= 0 && o.errRead >= 0 && o.outLog >= -1 && o.errLog >= -1
         && o.outRead != o.errRead && o.outLog != o.outRead && o.outLog != o.errRead
         && o.errLog != o.outRead && o.errLog != o.errRead && (o.outLog >= 0 ==> o.outLog != o.errLog)
         && {o.outRead, o.errRead, o.outLog, o.errLog} !! w.fds - Handles(s)
       else
         o.outRead == o.errRead == o.outLog == o.errLog == -1
  }

  predicate AllowedIo(w: World, st: Stream, op: StreamOp) {
    match op
    case Took(_) => st.readFd >= 0
    case CloseRead => st.readFd >= 0
    case OpenLog(fd, len, _) => fd >= -1 && fd !in w.fds - {st.logFd} && (fd < 0 ==> len == 0)
    case Wrote(_) => st.logFd >= 0
    case CloseLog(_) => st.logFd >= 0
  }

  predicate Allowed(w: World, i: nat, a: Action)
    requires i < |w.svcs|
  {
    var s := w.svcs[i];
    match a
    case Terminate(cause) => MayTerminate(w.svcs, i, cause)
    case TerminateLogger => s.active && s.logPid > 0 && !s.logStopping
    case Defer(t, at) => t <= Seconds(at) && Later(w, at) && Due(s, t) && !DepsSatisfied(s, w.svcs)
    case Launch(t, at, o) =>
      t <= Seconds(at) && Later(w, at) && Due(s, t) && DepsSatisfied(s, w.svcs) && LegalLaunch(w, s, o)
    case Cmd(c) => s.active && (c.GoUp? ==> Later(w, c.at)) && (c.Send? ==> s.pid > 0)
    case Io(c, op) => s.active && AllowedIo(w, s.streams.At(c), op)
    case ScanSeen => s.active
    case Register(r) =>
      && !s.active && (forall j :: 0 <= j < i ==> w.svcs[j].active)
      && (forall j :: 0 <= j < |w.svcs| && w.svcs[j].active ==> w.svcs[j].dir != r.dir)
    case Free => s.active && !s.present && s.pid <= 0 && s.logPid <= 0
    case KillMain => s.active && s.pid > 0
    case KillLogger => s.active && s.logPid > 0
    case Finalize => s.active
  }

  predicate Legal(w: World, e: Event) {
    match e
    case Tick(at) => Later(w, at)
    case Reap(pid, _, at, finish, asked) =>
      && pid > 0 && pid in w.children && Later(w, at)
      && (finish > 0 ==> finish !in w.children - {pid})
      && (if LoggerOf(w.svcs, pid).Some? || MainOf(w.svcs, pid).None? then asked == [] && finish <= 0
          else FinishAnswers(asked, finish))
    case Idle(pid) => pid <= 0
    case Script(asked) => ScriptAnswers(asked)
    case ScanOpen => true
    case Do(i, a) => i < |w.svcs| && Allowed(w, i, a)
  }

  // ---------------------------------------------------------------- what a step does

  /** Slot `i` becomes `s`, and the open descriptors change by what the slot gives up and takes. */
  function Put(w: World, i: nat, s: Service): World
    requires i < |w.svcs|
  {
    w.(svcs := w.svcs[i := s], fds := w.fds - Handles(w.svcs[i]) + Handles(s))
  }

  function TermMain(s: Service): seq<Signal> {
    if s.pid > 0 then [Signal(s.pid, SIGTERM, true)] else []
  }

  function TermLogger(s: Service): seq<Signal> {
    if s.logPid > 0 then [Signal(s.logPid, SIGTERM, false)] else []
  }

  /** The signals sent by an action on a slot that holds `s`, in order. */
  function ActionSends(s: Service, a: Action): seq<Signal> {
    match a
    case Terminate(_) => TermMain(s)
    case TerminateLogger => TermLogger(s)
    case Cmd(Stop) => TermMain(s) + TermLogger(s)
    case Cmd(Restart) => TermMain(s) + TermLogger(s)
    case Cmd(GoDown) => if s.pid > 0 then TermMain(s) + TermLogger(s) else []
    case Cmd(Send(sig)) => [Signal(s.pid, sig, true)]
    case KillMain => [Signal(s.pid, SIGKILL, true)]
    case KillLogger => [Signal(s.logPid, SIGKILL, false)]
    case _ => []
  }

  /** The signals a step sends, in order. */
  function Sends(w: World, e: Event): seq<Signal>
    requires Legal(w, e)
  {
    match e
    case Reap(pid, status, _, _, _) =>
      var k := MainOf(w.svcs, pid);
      if LoggerOf(w.svcs, pid).None? && k.Some? && StopsLogger(w.svcs[k.value], status)
      then TermLogger(w.svcs[k.value]) else []
    case Do(i, a) => ActionSends(w.svcs[i], a)
    case _ => []
  }

  function SlotAfter(s: Service, a: Action): Service {
    match a
    case Terminate(_) => Stopped(s)
    case TerminateLogger => LoggerStopped(s)
    case Defer(_, at) => s.(restartAt := Seconds(at) + 1)
    case Launch(_, at, o) => AfterLaunch(s, Seconds(at), o)
    case Cmd(c) => CommandAfter(s, c)
    case Io(c, op) => IoAfter(s, c, op)
    case ScanSeen => s.(present := true, stopping := false)
    case Register(r) => Registered(r)
    case Free => WithoutFds(s).(active := false, state := Down)
    case Finalize => Finalized(s)
    case KillMain => s
    case KillLogger => s
  }

  function ClockAfter(w: World, e: Event): int {
    match e
    case Tick(at) => at
    case Reap(_, _, at, _, _) => at
    case Do(_, Defer(_, at)) => at
    case Do(_, Launch(_, at, _)) => at
    case Do(_, Cmd(GoUp(at))) => at
    case _ => w.ms
  }

  function Just(pid: int): set<int> {
    if pid > 0 then {pid} else {}
  }

  function ChildrenAfter(w: World, e: Event): set<int> {
    match e
    case Reap(pid, _, _, finish, _) => w.children - {pid} + Just(finish)
    case Do(_, Launch(_, _, o)) => w.children + Just(o.loggerPid) + Just(o.pid)
    case _ => w.children
  }

  function Unlisted(s: Service): Service {
    if s.active then s.(present := false) else s
  }

  /** The slot a step writes, with its new content; `None` when it writes no slot or all of them. */
  function Target(w: World, e: Event): (k: Option<(nat, Service)>)
    requires Legal(w, e)
    ensures k.Some? ==> k.value.0 < |w.svcs|
  {
    match e
    case Tick(_) => None
    case Idle(_) => None
    case Script(_) => None
    case ScanOpen => None
    case Reap(pid, status, at, _, _) =>
      var l, m := LoggerOf(w.svcs, pid), MainOf(w.svcs, pid);
      if l.Some? then Some((l.value, AfterLoggerExit(w.svcs[l.value])))
      else if m.Some? then Some((m.value, AfterExit(w.svcs[m.value], status, Seconds(at))))
      else None
    case Do(i, a) => Some((i, SlotAfter(w.svcs[i], a)))
  }

  function Step(w: World, e: Event): (w': World)
    requires Legal(w, e)
    ensures |w'.svcs| == |w.svcs|
  {
    var k := Target(w, e);
    var moved :=
      if e.ScanOpen? then w.(svcs := seq(|w.svcs|, i requires 0 <= i < |w.svcs| => Unlisted(w.svcs[i])))
      else if k.Some? then Put(w, k.value.0, k.value.1)
      else w;
    World(moved.svcs, ChildrenAfter(w, e), moved.fds, ClockAfter(w, e), w.sent + Sends(w, e))
  }

  // ---------------------------------------------------------------- runs

  /** Stretches of events, one after the other. */
  function Joined(parts: seq<seq<Event>>): seq<Event> {
    if parts == [] then [] else Joined(parts[..|parts| - 1]) + parts[|parts| - 1]
  }

  predicate LegalRun(w: World, es: seq<Event>)
    decreases |es|, 0
  {
    |es| == 0 || (LegalRun(w, es[..|es| - 1]) && Legal(Run(w, es[..|es| - 1]), es[|es| - 1]))
  }

  function Run(w: World, es: seq<Event>): (w': World)
    requires LegalRun(w, es)
    ensures |w'.svcs| == |w.svcs|
    decreases |es|, 1
  {
    if |es| == 0 then w else Step(Run(w, es[..|es| - 1]), es[|es| - 1])
  }

  /** The zeroed table, no child, no descriptor. */
  ghost predicate Fresh(w: World) {
    && |w.svcs| == 256 && (forall i :: 0 <= i < |w.svcs| ==> w.svcs[i] == SERVICE_ZERO)
    && w.fds == {} && w.sent == []
  }

  /** Nothing to wait for, and a check script, change nothing. */
  lemma AsideStep(w: World, e: Event)
    requires Legal(w, e) && (e.Idle? || e.Script?)
    ensures Step(w, e) == w
  {
  }

  lemma IdleRun(w: World, pid: int)
    requires LegalRun(w, [Idle(pid)])
    ensures Run(w, [Idle(pid)]) == w && pid <= 0
  {
    assert [Idle(pid)][..0] == [];
    assert Legal(w, Idle(pid));
    AsideStep(w, Idle(pid));
    hide Step;
  }

  lemma EmptyRun(w: World)
    ensures LegalRun(w, []) && Run(w, []) == w
  {
  }

  lemma RunSnoc(w: World, es: seq<Event>, e: Event)
    requires LegalRun(w, es) && Legal(Run(w, es), e)
    ensures LegalRun(w, es + [e]) && Run(w, es + [e]) == Step(Run(w, es), e)
  {
    assert (es + [e])[..|es|] == es;
  }

  lemma {:induction false} RunConcat(w: World, a: seq<Event>, b: seq<Event>)
    requires LegalRun(w, a) && LegalRun(Run(w, a), b)
    ensures LegalRun(w, a + b) && Run(w, a + b) == Run(Run(w, a), b)
    decreases |b|
  {
    hide Step, Legal;
    if b == [] {
      assert a + b == a;
    } else {
      var c := b[..|b| - 1];
      RunConcat(w, a, c);
      RunSnoc(w, a + c, b[|b| - 1]);
      assert a + b == (a + c) + [b[|b| - 1]];
    }
  }

  lemma {:induction false} RunSplit(w: World, a: seq<Event>, b: seq<Event>)
    requires LegalRun(w, a + b)
    ensures LegalRun(w, a) && LegalRun(Run(w, a), b) && Run(w, a + b) == Run(Run(w, a), b)
    decreases |b|
  {
    hide Step, Legal;
    if b == [] {
      assert a + b == a;
    } else {
      var c := b[..|b| - 1];
      assert (a + b)[..|a + b| - 1] == a + c;
      RunSplit(w, a, c);
      assert (a + b)[|a + b| - 1] == b[|b| - 1];
    }
  }

  /** Every prefix of a legal run is a legal run. */
  lemma {:induction false} RunPrefix(w: World, es: seq<Event>, k: nat)
    requires LegalRun(w, es) && k <= |es|
    ensures LegalRun(w, es[..k])
    ensures k < |es| ==> Legal(Run(w, es[..k]), es[k])
    decreases |es|
  {
    if k == |es| {
      assert es[..k] == es;
    } else {
      var c := es[..|es| - 1];
      if k == |es| - 1 {
      } else {
        RunPrefix(w, c, k);
        assert c[..k] == es[..k];
      }
    }
  }
}
