/**
 The log files over runs: every open log end leads to the log file of its own stream and the recorded length is
 the size of the file, and each log file gains exactly the bytes that were written to it, whatever is rotated,
 reopened, launched or removed meanwhile.
 */
module Logs {
  import opened Types
  import opened Machine
  import opened Ledger
  import opened FileSystem
  import opened LogFiles
  import opened Paths

  // ---------------------------------------------------------------- bytes

  datatype Side = Read | Written

  function Payload(op: StreamOp, k: Side): Text {
    match op
    case Took(Data(b)) => if k == Read then b else []
    case Wrote(b) => if k == Written then b else []
    case CloseLog(b) => if k == Written then b else []
    case _ => []
  }

  /** The bytes that an event reads for, or writes to, the log file under `p`. */
  function Bytes(svcs: seq<Service>, e: Event, p: Text, k: Side): Text {
    if e.Do? && e.i < |svcs| && e.a.Io? && LogPath(svcs[e.i].dir, e.a.c) == p then Payload(e.a.op, k) else []
  }

  function Total(w: World, es: seq<Event>, p: Text, k: Side): Text
    requires LegalRun(w, es)
    decreases |es|
  {
    if es == [] then []
    else Total(w, es[..|es| - 1], p, k) + Bytes(Run(w, es[..|es| - 1]).svcs, es[|es| - 1], p, k)
  }

  lemma {:induction false} TotalConcat(w: World, a: seq<Event>, b: seq<Event>, p: Text, k: Side)
    requires LegalRun(w, a) && LegalRun(Run(w, a), b)
    ensures LegalRun(w, a + b) && Total(w, a + b, p, k) == Total(w, a, p, k) + Total(Run(w, a), b, p, k)
    decreases |b|
  {
    hide Step, Legal, Bytes;
    RunConcat(w, a, b);
    if b == [] {
      assert a + b == a;
    } else {
      var c := b[..|b| - 1];
      TotalConcat(w, a, c, p, k);
      RunConcat(w, a, c);
      assert (a + b)[..|a + b| - 1] == a + c;
    }
  }

  lemma TotalOne(w: World, e: Event, p: Text, k: Side)
    requires Legal(w, e)
    ensures LegalRun(w, [e]) && Run(w, [e]) == Step(w, e) && Total(w, [e], p, k) == Bytes(w.svcs, e, p, k)
  {
    hide Step, Legal, Bytes;
    RunSnoc(w, [], e);
    assert [] + [e] == [e] && [e][..0] == [];
  }

  /** The log could not be opened, or was given up after a failed write. */
  predicate Fails(e: Event) {
    e.Do? && e.a.Io? && (e.a.op.CloseLog? || (e.a.op.OpenLog? && e.a.op.fd < 0))
  }

  predicate Lossy(es: seq<Event>) {
    exists k :: 0 <= k < |es| && Fails(es[k])
  }

  lemma LossyConcat(a: seq<Event>, b: seq<Event>)
    ensures Lossy(a + b) <==> Lossy(a) || Lossy(b)
  {
    if Lossy(a) {
      var k :| 0 <= k < |a| && Fails(a[k]);
      assert Fails((a + b)[k]);
    }
    if Lossy(b) {
      var k :| 0 <= k < |b| && Fails(b[k]);
      assert Fails((a + b)[|a| + k]);
    }
  }

  /** Unless a step fails, each log file gets exactly the bytes read for it, in order. */
  ghost predicate Balanced(w: World, es: seq<Event>) {
    LegalRun(w, es) && (!Lossy(es) ==> forall p :: Total(w, es, p, Written) == Total(w, es, p, Read))
  }

  lemma BalancedConcat(w: World, a: seq<Event>, b: seq<Event>)
    requires Balanced(w, a) && Balanced(Run(w, a), b)
    ensures Balanced(w, a + b)
  {
    hide Step, Legal, LegalRun, Run, Total, Lossy;
    RunConcat(w, a, b);
    LossyConcat(a, b);
    forall p | !Lossy(a + b) ensures Total(w, a + b, p, Written) == Total(w, a + b, p, Read) {
      TotalConcat(w, a, b, p, Written);
      TotalConcat(w, a, b, p, Read);
    }
  }

  // ---------------------------------------------------------------- the invariant

  /** An open log end leads to the log file of its stream; its length is recorded unless the path is shared. */
  ghost predicate StreamLogged(f: Files, s: Service, c: Channel) {
    var st, p := s.streams.At(c), LogPath(s.dir, c);
    st.logFd >= 0 ==>
      && Leads(f, st.logFd, p)
      && (LogPath(s.dir, Out) != LogPath(s.dir, Err) ==> st.logLen == |Content(f, p)|)
  }

  ghost predicate SlotLogged(root: Text, f: Files, s: Service) {
    s.active ==> Below(root, s.dir) && StreamLogged(f, s, Out) && StreamLogged(f, s, Err)
  }

  ghost predicate LogsOk(root: Text, svcs: seq<Service>, f: Files) {
    Plain(f) && forall i :: 0 <= i < |svcs| ==> SlotLogged(root, f, svcs[i])
  }

  /** Every log file below `root` gains what is written to it and nothing else. */
  ghost predicate Gains(root: Text, w: World, f: Files, es: seq<Event>, g: Files)
    requires LegalRun(w, es)
  {
    forall p :: LogBelow(root, p) ==> Content(g, p) == Content(f, p) + Total(w, es, p, Written)
  }

  /** Taking the steps `es` from the world `w` turns the files `f` into `g` without harm to any log. */
  ghost predicate KeepsLogs(root: Text, w: World, f: Files, es: seq<Event>, g: Files) {
    && LegalRun(w, es)
    && (Inv(w) && LogsOk(root, w.svcs, f) ==> LogsOk(root, Run(w, es).svcs, g) && Gains(root, w, f, es, g))
  }

  lemma KeepsNone(root: Text, w: World, f: Files)
    ensures KeepsLogs(root, w, f, [], f)
  {
    hide LogsOk;
    EmptyRun(w);
    forall p ensures Content(f, p) == Content(f, p) + Total(w, [], p, Written) {
    }
  }

  lemma KeepsMore(root: Text, w: World, f: Files, a: seq<Event>, m: Files, b: seq<Event>, g: Files)
    requires KeepsLogs(root, w, f, a, m) && KeepsLogs(root, Run(w, a), m, b, g)
    ensures KeepsLogs(root, w, f, a + b, g)
  {
    hide Step, Legal, LegalRun, Run, LogsOk, Inv, Gains;
    RunConcat(w, a, b);
    if Inv(w) && LogsOk(root, w.svcs, f) {
      RunKeeps(w, a);
      GainsMore(root, w, f, a, m, b, g);
    }
  }

  lemma GainsMore(root: Text, w: World, f: Files, a: seq<Event>, m: Files, b: seq<Event>, g: Files)
    requires LegalRun(w, a) && LegalRun(Run(w, a), b) && Gains(root, w, f, a, m) && Gains(root, Run(w, a), m, b, g)
    ensures LegalRun(w, a + b) && Gains(root, w, f, a + b, g)
  {
    hide Step, Legal, LegalRun, Run, Total, Content, LogBelow;
    RunConcat(w, a, b);
    forall p | LogBelow(root, p) ensures Content(g, p) == Content(f, p) + Total(w, a + b, p, Written) {
      TotalConcat(w, a, b, p, Written);
      Assoc(Content(f, p), Total(w, a, p, Written), Total(Run(w, a), b, p, Written));
    }
  }

  // ---------------------------------------------------------------- steps that leave the logs alone

  predicate SameLog(s: Stream, t: Stream) {
    t.logFd < 0 || (t.logFd == s.logFd && t.logLen == s.logLen)
  }

  /** The log ends of `t` are among those of `s`, with the same lengths, in the same directory. */
  predicate SameLogs(s: Service, t: Service) {
    t.active ==>
      && s.active && t.dir == s.dir
      && SameLog(s.streams.out, t.streams.out) && SameLog(s.streams.err, t.streams.err)
  }

  lemma SameLogsLogged(root: Text, f: Files, s: Service, t: Service)
    requires SlotLogged(root, f, s) && SameLogs(s, t)
    ensures SlotLogged(root, f, t)
  {
    hide LogPath, Leads, Below;
  }

  predicate Direct(o: Launched) {
    o.pid > 0 && o.loggerPid <= 0
  }

  /** The step opens, writes or closes no log, and registers no service. */
  predicate Inert(e: Event) {
    e.Do? ==>
      && !e.a.Register?
      && (e.a.Launch? ==> !Direct(e.a.o))
      && (e.a.Io? ==> e.a.op.Took? || e.a.op.CloseRead?)
  }

  lemma CommandLogs(s: Service, c: Command)
    ensures SameLogs(s, CommandAfter(s, c))
  {
    CommandKeeps(s, c);
    hide CommandAfter;
  }

  lemma LaunchLogs(s: Service, t: int, o: Launched)
    requires !Direct(o)
    ensures SameLogs(s, AfterLaunch(s, t, o))
  {
  }

  lemma ReadLogs(s: Service, c: Channel, op: StreamOp)
    requires op.Took? || op.CloseRead?
    ensures SameLogs(s, IoAfter(s, c, op))
  {
  }

  lemma StoppedLogs(s: Service)
    ensures SameLogs(s, Stopped(s))
  {
  }

  lemma LoggerStoppedLogs(s: Service)
    ensures SameLogs(s, LoggerStopped(s))
  {
  }

  lemma FinalLogs(s: Service)
    ensures SameLogs(s, Finalized(s))
  {
  }

  lemma FreeLogs(s: Service)
    ensures SameLogs(s, SlotAfter(s, Free))
  {
  }

  lemma ExitLogs(s: Service, status: int, t: int)
    ensures SameLogs(s, AfterExit(s, status, t)) && SameLogs(s, AfterLoggerExit(s))
  {
  }

  lemma InertSlot(s: Service, a: Action)
    requires Inert(Do(0, a))
    ensures SameLogs(s, SlotAfter(s, a))
  {
    hide CommandAfter, IoAfter, AfterLaunch, Registered, Stopped, LoggerStopped, Finalized, WithoutFds, SameLogs;
    match a
    case Cmd(c) => CommandLogs(s, c);
    case Io(c, op) => ReadLogs(s, c, op);
    case Launch(_, at, o) => LaunchLogs(s, Seconds(at), o);
    case Terminate(_) => StoppedLogs(s);
    case TerminateLogger => LoggerStoppedLogs(s);
    case Defer(_, at) => DeferLogs(s, at);
    case ScanSeen => SeenLogs(s);
    case Free => FreeLogs(s);
    case KillMain => SameLogsSelf(s);
    case KillLogger => SameLogsSelf(s);
    case Finalize => FinalLogs(s);
  }

  lemma DeferLogs(s: Service, at: int)
    ensures SameLogs(s, s.(restartAt := Seconds(at) + 1))
  {
  }

  lemma SeenLogs(s: Service)
    ensures SameLogs(s, s.(present := true, stopping := false)) && SameLogs(s, Unlisted(s))
  {
  }

  lemma SameLogsSelf(s: Service)
    ensures SameLogs(s, s)
  {
  }

  lemma InertStep(w: World, e: Event, i: nat)
    requires Legal(w, e) && Inert(e) && i < |w.svcs|
    ensures SameLogs(w.svcs[i], Step(w, e).svcs[i])
  {
    hide Handles, Sends, ChildrenAfter, ClockAfter, SlotAfter, AfterExit, AfterLoggerExit, Allowed, SameLogs;
    SameLogsSelf(w.svcs[i]);
    if e.ScanOpen? {
      SeenLogs(w.svcs[i]);
    } else if Target(w, e).Some? && Target(w, e).value.0 == i {
      if e.Reap? {
        ExitLogs(w.svcs[i], e.status, Seconds(e.at));
      } else {
        InertAnySlot(w.svcs[i], e);
      }
    }
  }

  lemma InertAnySlot(s: Service, e: Event)
    requires e.Do? && Inert(e)
    ensures SameLogs(s, SlotAfter(s, e.a))
  {
    hide SlotAfter, SameLogs;
    InertSlot(s, e.a);
  }

  lemma InertKeeps(root: Text, w: World, f: Files, e: Event)
    requires Legal(w, e) && Inert(e)
    ensures KeepsLogs(root, w, f, [e], f)
  {
    hide Step, Legal, SlotLogged, SameLogs, Bytes;
    forall p ensures Bytes(w.svcs, e, p, Written) == [] {
      InertBytes(w.svcs, e, p, Written);
    }
    forall p ensures LegalRun(w, [e]) && Run(w, [e]) == Step(w, e) && Total(w, [e], p, Written) == [] {
      TotalOne(w, e, p, Written);
    }
    forall p ensures Content(f, p) == Content(f, p) + [] {
    }
    RunSnoc(w, [], e);
    assert [] + [e] == [e];
    hide LegalRun, Run, Total;
    forall i: nat | i < |w.svcs| ensures SlotLogged(root, f, w.svcs[i]) ==> SlotLogged(root, f, Step(w, e).svcs[i]) {
      InertStep(w, e, i);
      if SlotLogged(root, f, w.svcs[i]) {
        SameLogsLogged(root, f, w.svcs[i], Step(w, e).svcs[i]);
      }
    }
  }

  lemma InertBytes(svcs: seq<Service>, e: Event, p: Text, k: Side)
    requires Inert(e) && (k == Read ==> !(e.Do? && e.a.Io? && e.a.op.Took?))
    ensures Bytes(svcs, e, p, k) == []
  {
  }

  // ---------------------------------------------------------------- opening and rotating

  /** The log of channel `c` has been reopened under its path, perhaps after a rotation. */
  ghost predicate LogReopened(f: Files, dir: Text, c: Channel, fd: int, len: nat, g: Files) {
    (exists m :: Moved(f, dir, c, m) && OpenedAs(m, LogPath(dir, c), fd, g))
    && (fd >= 0 ==> len == |Content(g, LogPath(dir, c))|)
  }

  /** A rotation of channel `c` may have renamed something. */
  ghost predicate Moved(f: Files, dir: Text, c: Channel, m: Files) {
    m == f || exists ts: nat, rotations: nat :: RenamedAs(f, RotatedFrom(dir, c), RotatedTo(dir, c, ts, rotations), m)
  }

  /** For the logs below `root`, nothing changes but that `fd` may lead to another of them. */
  ghost predicate OnlyOpened(root: Text, f: Files, fd: int, g: Files) {
    && (Plain(f) ==> Plain(g))
    && (forall p :: LogBelow(root, p) ==> Content(g, p) == Content(f, p))
    && (forall x, p :: LogBelow(root, p) && Leads(f, x, p) && (fd < 0 || x != fd) ==> Leads(g, x, p))
  }

  lemma ReopenedFacts(root: Text, f: Files, dir: Text, c: Channel, fd: int, len: nat, g: Files)
    requires Below(root, dir) && LogReopened(f, dir, c, fd, len, g)
    ensures OnlyOpened(root, f, fd, g)
    ensures fd >= 0 ==> Leads(g, fd, LogPath(dir, c)) && len == |Content(g, LogPath(dir, c))|
  {
    hide LogPath, RotatedFrom, RotatedTo, RenamedAs, OpenedAs, Below, LogBelow, Plain, Leads, Content;
    var m :| Moved(f, dir, c, m) && OpenedAs(m, LogPath(dir, c), fd, g);
    OpenKeeps(m, LogPath(dir, c), fd, g);
    if m != f {
      var ts: nat, rotations: nat :| RenamedAs(f, RotatedFrom(dir, c), RotatedTo(dir, c, ts, rotations), m);
      RenameKeeps(f, RotatedFrom(dir, c), RotatedTo(dir, c, ts, rotations), m);
      forall p | LogBelow(root, p)
        ensures Content(m, p) == Content(f, p) && forall x :: Leads(f, x, p) ==> Leads(m, x, p)
      {
        RotationSpares(root, dir, c, ts, rotations, p);
      }
    }
  }

  lemma LogOfSlot(root: Text, s: Service, c: Channel)
    requires Below(root, s.dir)
    ensures LogBelow(root, LogPath(s.dir, c))
  {
  }

  /** A slot whose log ends are other descriptors keeps its logs. */
  lemma SlotFrame(root: Text, f: Files, fd: int, g: Files, s: Service)
    requires SlotLogged(root, f, s) && OnlyOpened(root, f, fd, g)
    requires fd >= 0 && s.active ==> s.streams.out.logFd != fd && s.streams.err.logFd != fd
    ensures SlotLogged(root, g, s)
  {
    hide LogPath, Below, LogBelow, Leads, Content, Plain;
    if s.active {
      LogOfSlot(root, s, Out);
      LogOfSlot(root, s, Err);
    }
  }

  /** The log ends of a slot are open, and no other end of any slot. */
  lemma LogEnds(w: World, i: nat, c: Channel)
    requires Inv(w) && i < |w.svcs| && w.svcs[i].active && w.svcs[i].streams.At(c).logFd >= 0
    ensures w.svcs[i].streams.At(c).logFd in Handles(w.svcs[i]) && Handles(w.svcs[i]) <= w.fds
    ensures forall d :: d != c ==> w.svcs[i].streams.At(d).logFd != w.svcs[i].streams.At(c).logFd
    ensures forall j :: 0 <= j < |w.svcs| && j != i ==> Handles(w.svcs[j]) !! Handles(w.svcs[i])
  {
    hide ProcLedger, SlotOk;
    assert Fd(w.svcs[i], End(c, true)) == w.svcs[i].streams.At(c).logFd;
    forall d | d != c ensures w.svcs[i].streams.At(d).logFd != w.svcs[i].streams.At(c).logFd {
      assert Fd(w.svcs[i], End(d, true)) == w.svcs[i].streams.At(d).logFd && End(d, true) != End(c, true);
    }
    hide Handles;
    assert DistinctEnds(w.svcs[i]);
  }

  /** A descriptor that the kernel could hand out while slot `i` was giving up its own is no log end elsewhere. */
  lemma FreshElsewhere(w: World, i: nat, j: nat, fd: int)
    requires Inv(w) && i < |w.svcs| && j < |w.svcs| && j != i && w.svcs[j].active && fd !in w.fds - Handles(w.svcs[i])
    requires fd >= 0
    ensures w.svcs[j].streams.out.logFd != fd && w.svcs[j].streams.err.logFd != fd
  {
    hide Handles, Inv;
    if w.svcs[j].streams.out.logFd >= 0 {
      LogEnds(w, j, Out);
    }
    if w.svcs[j].streams.err.logFd >= 0 {
      LogEnds(w, j, Err);
    }
  }

  lemma ReopenedSlot(root: Text, f: Files, s: Service, c: Channel, fd: int, len: nat, rotated: bool, g: Files)
    requires s.active && SlotLogged(root, f, s) && LogReopened(f, s.dir, c, fd, len, g)
    requires forall d :: d != c && s.streams.At(d).logFd >= 0 ==> s.streams.At(d).logFd != fd
    ensures SlotLogged(root, g, IoAfter(s, c, OpenLog(fd, len, rotated)))
  {
    hide LogReopened, LogPath, Below, LogBelow, Leads, Content, Plain;
    ReopenedFacts(root, f, s.dir, c, fd, len, g);
    LogOfSlot(root, s, Out);
    LogOfSlot(root, s, Err);
  }

  lemma OpenStep(w: World, i: nat, c: Channel, op: StreamOp)
    requires Legal(w, Do(i, Io(c, op)))
    ensures i < |w.svcs| && w.svcs[i].active
    ensures op.OpenLog? ==> op.fd >= -1 && op.fd !in w.fds - {w.svcs[i].streams.At(c).logFd}
    ensures op.Wrote? || op.CloseLog? ==> w.svcs[i].streams.At(c).logFd >= 0
    ensures Step(w, Do(i, Io(c, op))).svcs == w.svcs[i := IoAfter(w.svcs[i], c, op)]
  {
    hide Handles, IoAfter;
    assert AllowedIo(w, w.svcs[i].streams.At(c), op);
  }

  lemma ReopenLogged(root: Text, w: World, f: Files, i: nat, c: Channel, op: StreamOp, g: Files)
    requires Inv(w) && LogsOk(root, w.svcs, f) && Legal(w, Do(i, Io(c, op))) && op.OpenLog?
    requires LogReopened(f, w.svcs[i].dir, c, op.fd, op.len, g)
    ensures LogsOk(root, Step(w, Do(i, Io(c, op))).svcs, g) && OnlyOpened(root, f, op.fd, g)
  {
    hide Inv, Legal, Step, LogReopened, Handles, IoAfter, SlotLogged, Plain, OnlyOpened;
    OpenStep(w, i, c, op);
    var s := w.svcs[i];
    assert SlotLogged(root, f, s);
    SlotBelow(root, f, s);
    ReopenedFacts(root, f, s.dir, c, op.fd, op.len, g);
    if s.streams.At(c).logFd >= 0 {
      LogEnds(w, i, c);
    }
    OtherChannel(w, i, c, op.fd);
    ReopenedSlot(root, f, s, c, op.fd, op.len, op.rotated, g);
    forall j: nat | j < |w.svcs| && j != i ensures SlotLogged(root, g, w.svcs[j]) {
      assert SlotLogged(root, f, w.svcs[j]);
      if op.fd >= 0 && w.svcs[j].active {
        FreshElsewhere(w, i, j, op.fd);
      }
      SlotFrame(root, f, op.fd, g, w.svcs[j]);
    }
    PlainStays(root, f, op.fd, g);
  }

  lemma PlainStays(root: Text, f: Files, fd: int, g: Files)
    requires OnlyOpened(root, f, fd, g) && Plain(f)
    ensures Plain(g)
  {
  }

  lemma SlotBelow(root: Text, f: Files, s: Service)
    requires SlotLogged(root, f, s) && s.active
    ensures Below(root, s.dir)
  {
  }

  lemma OtherChannel(w: World, i: nat, c: Channel, fd: int)
    requires Inv(w) && i < |w.svcs| && w.svcs[i].active && fd !in w.fds - {w.svcs[i].streams.At(c).logFd}
    ensures forall d :: d != c && w.svcs[i].streams.At(d).logFd >= 0 ==> w.svcs[i].streams.At(d).logFd != fd
  {
    hide Inv, Handles;
    forall d | d != c && w.svcs[i].streams.At(d).logFd >= 0 ensures w.svcs[i].streams.At(d).logFd != fd {
      LogEnds(w, i, d);
    }
  }

  lemma OneStep(w: World, e: Event)
    requires Legal(w, e)
    ensures LegalRun(w, [e]) && Run(w, [e]) == Step(w, e)
  {
    hide Step, Legal;
    EmptyRun(w);
    RunSnoc(w, [], e);
    assert [] + [e] == [e];
  }

  /** Reopening a log, rotation included, keeps all logs. */
  lemma ReopenKeeps(root: Text, w: World, f: Files, i: nat, c: Channel, op: StreamOp, g: Files)
    requires Legal(w, Do(i, Io(c, op))) && op.OpenLog?
    requires LogReopened(f, w.svcs[i].dir, c, op.fd, op.len, g)
    ensures KeepsLogs(root, w, f, [Do(i, Io(c, op))], g)
  {
    hide Inv, Legal, Step, LogReopened, LogsOk, LegalRun, Run, Total;
    var e := Do(i, Io(c, op));
    OneStep(w, e);
    if Inv(w) && LogsOk(root, w.svcs, f) {
      ReopenLogged(root, w, f, i, c, op, g);
      forall p | LogBelow(root, p) ensures Content(g, p) == Content(f, p) + Total(w, [e], p, Written) {
        TotalOne(w, e, p, Written);
      }
    }
  }

  // ---------------------------------------------------------------- writing

  lemma WrittenSlot(f: Files, s: Service, c: Channel, op: StreamOp, g: Files)
    requires s.active && StreamLogged(f, s, Out) && StreamLogged(f, s, Err)
    requires (op.Wrote? || op.CloseLog?) && s.streams.At(c).logFd >= 0
    requires forall x, q :: Leads(f, x, q) ==> Leads(g, x, q)
    requires forall q :: Content(g, q) == Content(f, q) + if q == LogPath(s.dir, c) then op.b else []
    ensures var t := IoAfter(s, c, op); StreamLogged(g, t, Out) && StreamLogged(g, t, Err)
  {
    hide LogPath, Leads, Content;
  }

  lemma UnwrittenSlot(root: Text, f: Files, s: Service, p: Text, b: Text, g: Files)
    requires SlotLogged(root, f, s) && (s.active ==> LogPath(s.dir, Out) != p && LogPath(s.dir, Err) != p)
    requires forall x, q :: Leads(f, x, q) ==> Leads(g, x, q)
    requires forall q :: Content(g, q) == Content(f, q) + if q == p then b else []
    ensures SlotLogged(root, g, s)
  {
    hide LogPath, Leads, Content, Below;
  }

  lemma OtherPaths(root: Text, w: World, f: Files, i: nat, c: Channel, j: nat)
    requires Inv(w) && LogsOk(root, w.svcs, f) && i < |w.svcs| && w.svcs[i].active && j < |w.svcs| && j != i
    ensures w.svcs[j].active ==>
              && LogPath(w.svcs[j].dir, Out) != LogPath(w.svcs[i].dir, c)
              && LogPath(w.svcs[j].dir, Err) != LogPath(w.svcs[i].dir, c)
  {
    hide LogPath, Below, StreamLogged, ProcLedger, FdLedger, SlotOk;
    assert SlotLogged(root, f, w.svcs[i]) && SlotLogged(root, f, w.svcs[j]);
    if w.svcs[j].active {
      LogsApart(root, w.svcs[j].dir, Out, w.svcs[i].dir, c);
      LogsApart(root, w.svcs[j].dir, Err, w.svcs[i].dir, c);
    }
  }

  lemma WriteLogged(root: Text, w: World, f: Files, i: nat, c: Channel, op: StreamOp)
    requires Inv(w) && LogsOk(root, w.svcs, f) && Legal(w, Do(i, Io(c, op))) && (op.Wrote? || op.CloseLog?)
    ensures var g := Appended(f, w.svcs[i].streams.At(c).logFd, op.b);
            && LogsOk(root, Step(w, Do(i, Io(c, op))).svcs, g)
            && forall q :: Content(g, q) == Content(f, q) + if q == LogPath(w.svcs[i].dir, c) then op.b else []
  {
    hide Inv, Legal, Step, IoAfter, StreamLogged, Plain, Appended, LogPath, Below, Leads, Content;
    OpenStep(w, i, c, op);
    var s := w.svcs[i];
    var g := Appended(f, s.streams.At(c).logFd, op.b);
    assert SlotLogged(root, f, s);
    LogLeads(f, s, c);
    AppendKeeps(f, s.streams.At(c).logFd, op.b, LogPath(s.dir, c));
    WrittenSlot(f, s, c, op, g);
    IoDir(s, c, op);
    assert SlotLogged(root, g, IoAfter(s, c, op));
    forall j: nat | j < |w.svcs| && j != i ensures SlotLogged(root, g, w.svcs[j]) {
      assert SlotLogged(root, f, w.svcs[j]);
      OtherPaths(root, w, f, i, c, j);
      UnwrittenSlot(root, f, w.svcs[j], LogPath(s.dir, c), op.b, g);
    }
  }

  lemma LogLeads(f: Files, s: Service, c: Channel)
    requires StreamLogged(f, s, Out) && StreamLogged(f, s, Err) && s.streams.At(c).logFd >= 0
    ensures Leads(f, s.streams.At(c).logFd, LogPath(s.dir, c))
  {
    hide LogPath, Leads, Content;
    assert c == Out || c == Err;
  }

  lemma WrittenBytes(svcs: seq<Service>, i: nat, c: Channel, op: StreamOp, p: Text)
    requires i < |svcs| && (op.Wrote? || op.CloseLog?)
    ensures Bytes(svcs, Do(i, Io(c, op)), p, Written) == if p == LogPath(svcs[i].dir, c) then op.b else []
  {
  }

  /** A write adds its data to the log of its own stream and to no other log. */
  lemma WriteKeeps(root: Text, w: World, f: Files, i: nat, c: Channel, op: StreamOp)
    requires Legal(w, Do(i, Io(c, op))) && (op.Wrote? || op.CloseLog?) && i < |w.svcs|
    ensures KeepsLogs(root, w, f, [Do(i, Io(c, op))], Appended(f, w.svcs[i].streams.At(c).logFd, op.b))
  {
    hide Inv, Legal, Step, LogsOk, LegalRun, Run, Total, Bytes, LogPath, LogBelow, Content, Appended;
    var e := Do(i, Io(c, op));
    OneStep(w, e);
    if Inv(w) && LogsOk(root, w.svcs, f) {
      WriteLogged(root, w, f, i, c, op);
      var g := Appended(f, w.svcs[i].streams.At(c).logFd, op.b);
      forall p ensures Content(g, p) == Content(f, p) + Total(w, [e], p, Written) {
        TotalOne(w, e, p, Written);
        WrittenBytes(w.svcs, i, c, op, p);
      }
    }
  }

  lemma OtherStream(s: Service, c: Channel, op: StreamOp, d: Channel)
    requires d != c
    ensures IoAfter(s, c, op).streams.At(d) == s.streams.At(d)
  {
  }

  /**
   Two streams of one service whose logs have their exact lengths: a write to one leaves the length of the other
   exact if and only if the directory leaves the two log paths different, which takes fourteen more bytes.
   */
  lemma SharedLengthIff(root: Text, w: World, f: Files, i: nat, c: Channel, b: Text, d: Channel)
    requires Inv(w) && LogsOk(root, w.svcs, f) && Legal(w, Do(i, Io(c, Wrote(b)))) && b != [] && d != c
    requires i < |w.svcs| && w.svcs[i].streams.At(d).logFd >= 0
    requires w.svcs[i].streams.At(d).logLen == |Content(f, LogPath(w.svcs[i].dir, d))|
    ensures var s, t := w.svcs[i], Step(w, Do(i, Io(c, Wrote(b)))).svcs[i];
            t.streams.At(d).logLen == |Content(Appended(f, s.streams.At(c).logFd, b), LogPath(s.dir, d))|
            <==> |NonZero(s.dir)| + 14 < 1024
  {
    hide Inv, Legal, Step, LogsOk, LogPath, Content, Appended, IoAfter, NonZero;
    OpenStep(w, i, c, Wrote(b));
    WriteLogged(root, w, f, i, c, Wrote(b));
    OtherStream(w.svcs[i], c, Wrote(b), d);
    LogsSharedIff(w.svcs[i].dir);
    assert (c == Out && d == Err) || (c == Err && d == Out);
  }

  // ---------------------------------------------------------------- launching

  /** A launch without a logger has opened the log files of both streams, or has failed to. */
  ghost predicate LaunchOpened(f: Files, dir: Text, o: Launched, g: Files) {
    exists m ::
      && OpenedAs(f, LogPath(dir, Out), o.outLog, m) && (o.outLog >= 0 ==> o.outLen == |Content(m, LogPath(dir, Out))|)
      && OpenedAs(m, LogPath(dir, Err), o.errLog, g) && (o.errLog >= 0 ==> o.errLen == |Content(g, LogPath(dir, Err))|)
  }

  lemma OpenedOnly(root: Text, f: Files, p: Text, fd: int, g: Files)
    requires OpenedAs(f, p, fd, g)
    ensures OnlyOpened(root, f, fd, g) && (fd >= 0 ==> Leads(g, fd, p)) && Content(g, p) == Content(f, p)
  {
    hide OpenedAs, LogBelow, Plain, Leads, Content;
    OpenKeeps(f, p, fd, g);
  }

  lemma LaunchStream(s: Service, t: int, o: Launched)
    requires Direct(o)
    ensures var u := AfterLaunch(s, t, o);
            && u.active == s.active && u.dir == s.dir
            && u.streams.out.logFd == o.outLog && u.streams.out.logLen == o.outLen
            && u.streams.err.logFd == o.errLog && u.streams.err.logLen == o.errLen
  {
  }

  /** Both streams of a slot that has just been launched are logged. */
  lemma LaunchedLogs(root: Text, f: Files, dir: Text, o: Launched, m: Files, g: Files, s: Service)
    requires Below(root, dir) && OpenedAs(f, LogPath(dir, Out), o.outLog, m)
             && OpenedAs(m, LogPath(dir, Err), o.errLog, g)
    requires o.outLog >= 0 ==> o.outLen == |Content(m, LogPath(dir, Out))|
    requires o.errLog >= 0 ==> o.errLen == |Content(g, LogPath(dir, Err))|
    requires o.outLog >= 0 ==> o.outLog != o.errLog
    requires s.dir == dir && s.streams.out.logFd == o.outLog && s.streams.out.logLen == o.outLen
    requires s.streams.err.logFd == o.errLog && s.streams.err.logLen == o.errLen
    ensures StreamLogged(g, s, Out) && StreamLogged(g, s, Err)
  {
    hide OpenedAs, LogPath, LogBelow, Plain, Leads, Content, Below;
    OpenedOnly(root, f, LogPath(dir, Out), o.outLog, m);
    OpenedOnly(root, m, LogPath(dir, Err), o.errLog, g);
    LogOfSlot(root, s, Out);
  }

  lemma LaunchEnds(w: World, i: nat, t: int, at: int, o: Launched)
    requires Legal(w, Do(i, Launch(t, at, o))) && Direct(o)
    ensures i < |w.svcs| && w.svcs[i].active
    ensures o.outLog >= 0 ==> o.outLog != o.errLog && o.outLog !in w.fds - Handles(w.svcs[i])
    ensures o.errLog >= 0 ==> o.errLog !in w.fds - Handles(w.svcs[i])
    ensures Step(w, Do(i, Launch(t, at, o))).svcs == w.svcs[i := AfterLaunch(w.svcs[i], Seconds(at), o)]
  {
    hide Handles, AfterLaunch, DepsSatisfied;
    assert LegalLaunch(w, w.svcs[i], o);
    var ends := {o.outRead, o.errRead, o.outLog, o.errLog};
    assert o.outLog in ends && o.errLog in ends;
  }

  lemma LaunchLogged(root: Text, w: World, f: Files, i: nat, t: int, at: int, o: Launched, g: Files)
    requires Inv(w) && LogsOk(root, w.svcs, f) && Legal(w, Do(i, Launch(t, at, o))) && Direct(o)
    requires LaunchOpened(f, w.svcs[i].dir, o, g)
    ensures LogsOk(root, Step(w, Do(i, Launch(t, at, o))).svcs, g)
    ensures forall p :: LogBelow(root, p) ==> Content(g, p) == Content(f, p)
  {
    hide Inv, Legal, Step, Handles, AfterLaunch, StreamLogged, Plain, OpenedAs, LogPath, Below, LogBelow;
    hide Leads, Content;
    LaunchEnds(w, i, t, at, o);
    var s := w.svcs[i];
    var m :|
      && OpenedAs(f, LogPath(s.dir, Out), o.outLog, m)
        && (o.outLog >= 0 ==> o.outLen == |Content(m, LogPath(s.dir, Out))|)
      && OpenedAs(m, LogPath(s.dir, Err), o.errLog, g)
        && (o.errLog >= 0 ==> o.errLen == |Content(g, LogPath(s.dir, Err))|);
    OpenedOnly(root, f, LogPath(s.dir, Out), o.outLog, m);
    OpenedOnly(root, m, LogPath(s.dir, Err), o.errLog, g);
    assert SlotLogged(root, f, s);
    var u := AfterLaunch(s, Seconds(at), o);
    LaunchStream(s, Seconds(at), o);
    LaunchedLogs(root, f, s.dir, o, m, g, u);
    assert SlotLogged(root, g, u);
    hide OnlyOpened, Direct, SlotLogged;
    forall j: nat | j < |w.svcs| && j != i ensures SlotLogged(root, g, w.svcs[j]) {
      TwiceFramed(root, w, f, i, o.outLog, m, o.errLog, g, j);
    }
    OnlyTwice(root, f, o.outLog, m, o.errLog, g);
  }

  lemma OnlyTwice(root: Text, f: Files, x: int, m: Files, y: int, g: Files)
    requires OnlyOpened(root, f, x, m) && OnlyOpened(root, m, y, g)
    ensures Plain(f) ==> Plain(g)
    ensures forall p :: LogBelow(root, p) ==> Content(g, p) == Content(f, p)
  {
    hide Plain, LogBelow, Leads, Content;
  }

  lemma TwiceFramed(root: Text, w: World, f: Files, i: nat, x: int, m: Files, y: int, g: Files, j: nat)
    requires Inv(w) && LogsOk(root, w.svcs, f) && i < |w.svcs| && j < |w.svcs| && j != i
    requires OnlyOpened(root, f, x, m) && OnlyOpened(root, m, y, g)
    requires (x >= 0 ==> x !in w.fds - Handles(w.svcs[i])) && (y >= 0 ==> y !in w.fds - Handles(w.svcs[i]))
    ensures SlotLogged(root, g, w.svcs[j])
  {
    hide Inv, Handles, OnlyOpened, Plain;
    assert SlotLogged(root, f, w.svcs[j]);
    hide SlotLogged;
    if w.svcs[j].active {
      if x >= 0 {
        FreshElsewhere(w, i, j, x);
      }
      if y >= 0 {
        FreshElsewhere(w, i, j, y);
      }
    }
    SlotFrame(root, f, x, m, w.svcs[j]);
    SlotFrame(root, m, y, g, w.svcs[j]);
  }

  lemma LaunchBytes(svcs: seq<Service>, i: nat, t: int, at: int, o: Launched, p: Text)
    ensures Bytes(svcs, Do(i, Launch(t, at, o)), p, Written) == []
  {
  }

  lemma LaunchKeepsLogs(root: Text, w: World, f: Files, i: nat, t: int, at: int, o: Launched, g: Files)
    requires Legal(w, Do(i, Launch(t, at, o))) && i < |w.svcs| && Direct(o) && LaunchOpened(f, w.svcs[i].dir, o, g)
    ensures KeepsLogs(root, w, f, [Do(i, Launch(t, at, o))], g)
  {
    hide Inv, Legal, Step, LogsOk, LegalRun, Run, Total, Bytes, LaunchOpened, LogBelow, Content, Direct;
    var e := Do(i, Launch(t, at, o));
    OneStep(w, e);
    if Inv(w) && LogsOk(root, w.svcs, f) {
      LaunchLogged(root, w, f, i, t, at, o, g);
      forall p | LogBelow(root, p) ensures Content(g, p) == Content(f, p) + Total(w, [e], p, Written) {
        TotalOne(w, e, p, Written);
        LaunchBytes(w.svcs, i, t, at, o, p);
      }
    }
  }

  // ---------------------------------------------------------------- registering

  lemma RegisterStep(w: World, i: nat, r: Registration)
    requires Legal(w, Do(i, Register(r)))
    ensures i < |w.svcs| && Step(w, Do(i, Register(r))).svcs == w.svcs[i := Registered(r)]
  {
    hide Handles, Registered;
  }

  lemma NewLogged(root: Text, f: Files, r: Registration)
    requires Below(root, r.dir)
    ensures SlotLogged(root, f, Registered(r))
  {
    hide LogPath, Leads, Content, Below;
  }

  lemma RegisterBytes(svcs: seq<Service>, i: nat, r: Registration, p: Text)
    ensures Bytes(svcs, Do(i, Register(r)), p, Written) == []
  {
  }

  lemma RegisterKeepsLogs(root: Text, w: World, f: Files, i: nat, r: Registration)
    requires Legal(w, Do(i, Register(r))) && Below(root, r.dir)
    ensures KeepsLogs(root, w, f, [Do(i, Register(r))], f)
  {
    hide Inv, Legal, Step, LegalRun, Run, Total, Bytes, LogBelow, Content, SlotLogged, Plain, Below, Registered;
    var e := Do(i, Register(r));
    OneStep(w, e);
    RegisterStep(w, i, r);
    NewLogged(root, f, r);
    forall p ensures Content(f, p) == Content(f, p) + Total(w, [e], p, Written) {
      TotalOne(w, e, p, Written);
      RegisterBytes(w.svcs, i, r, p);
    }
  }

  // ---------------------------------------------------------------- over a whole run

  /** From the world `o` and the files `found`, the run `es` has led to the files `f` without harm to any log. */
  ghost predicate Logged(root: Text, o: World, found: Files, es: seq<Event>, f: Files) {
    Inv(o) && LogsOk(root, o.svcs, found) && KeepsLogs(root, o, found, es, f)
  }

  lemma LoggedFresh(root: Text, o: World, found: Files)
    requires Fresh(o) && Plain(found)
    ensures Logged(root, o, found, [], found)
  {
    hide Plain;
    FreshInv(o);
    KeepsNone(root, o, found);
  }

  lemma LoggedMore(root: Text, o: World, found: Files, es: seq<Event>, f: Files, e: Event, g: Files)
    requires Logged(root, o, found, es, f) && KeepsLogs(root, Run(o, es), f, [e], g)
    ensures Logged(root, o, found, es + [e], g)
  {
    hide Inv, LogsOk, KeepsLogs;
    KeepsMore(root, o, found, es, f, [e], g);
  }

  /**
   The invariant and conservation at every point of a run: an open log end leads to the log file of its stream
   with the exact length, and each log file holds what it held at first followed by what was written to it.
   */
  lemma LoggedFacts(root: Text, o: World, found: Files, es: seq<Event>, f: Files)
    requires Logged(root, o, found, es, f)
    ensures LegalRun(o, es) && LogsOk(root, Run(o, es).svcs, f) && Gains(root, o, found, es, f)
  {
  }

  /** Between two points of a run each log gains what was written to it in between. */
  lemma LoggedBetween(root: Text, o: World, found: Files, h: seq<Event>, f: Files, es: seq<Event>, g: Files)
    requires Logged(root, o, found, h, f) && LegalRun(o, h) && LegalRun(Run(o, h), es)
             && Logged(root, o, found, h + es, g)
    ensures Gains(root, Run(o, h), f, es, g)
  {
    hide Inv, LogsOk, Legal, Step, Content, LogBelow;
    RunConcat(o, h, es);
    forall p | LogBelow(root, p) ensures Content(g, p) == Content(f, p) + Total(Run(o, h), es, p, Written) {
      TotalConcat(o, h, es, p, Written);
      Assoc(Content(found, p), Total(o, h, p, Written), Total(Run(o, h), es, p, Written));
    }
  }

  /** Each log below `root` gains exactly what is written to it, which is what is read for it unless a step fails. */
  ghost predicate Conserves(root: Text, w: World, f: Files, es: seq<Event>, g: Files) {
    Balanced(w, es) && Gains(root, w, f, es, g)
  }

  /** Nothing lost, nothing added: without failures a log is what it was, then what was read for it, in order. */
  lemma ConservesAll(root: Text, w: World, f: Files, es: seq<Event>, g: Files, p: Text)
    requires Conserves(root, w, f, es, g) && LogBelow(root, p) && !Lossy(es)
    ensures Content(g, p) == Content(f, p) + Total(w, es, p, Read)
  {
    hide LegalRun, Run, Total, Lossy;
  }

  predicate NoIo(es: seq<Event>) {
    forall k :: 0 <= k < |es| ==> !(es[k].Do? && es[k].a.Io?)
  }

  /** Without drained output nothing is read and nothing written. */
  lemma {:induction false} NoIoTotal(w: World, es: seq<Event>, p: Text, k: Side)
    requires LegalRun(w, es) && NoIo(es)
    ensures Total(w, es, p, k) == []
    decreases |es|
  {
    hide Step, Legal;
    if es != [] {
      NoIoTotal(w, es[..|es| - 1], p, k);
    }
  }

  lemma NoIoBalanced(w: World, es: seq<Event>)
    requires LegalRun(w, es) && NoIo(es)
    ensures Balanced(w, es)
  {
    forall p ensures Total(w, es, p, Written) == Total(w, es, p, Read) {
      NoIoTotal(w, es, p, Written);
      NoIoTotal(w, es, p, Read);
    }
  }
}
