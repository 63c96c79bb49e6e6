/** The service table: constants, the record kept in each slot, and look-up by name and by directory. */
module Types {

  const MAX_SERVICES: nat := 256
  const NAME_BUF: nat := 64
  const PATH_BUF: nat := 1024
  const IO_BUF: nat := 4096
  const MAX_DEPENDENCIES: nat := 16
  const RESTART_WINDOW: int := 60
  const MAX_RESTARTS: nat := 5
  const BACKOFF_SHORT: int := 2
  const BACKOFF_MED: int := 10
  const BACKOFF_LONG: int := 60
  const SHUTDOWN_TIMEOUT: int := 5
  const LOG_LIMIT: nat := 1_048_576

  /** `i64::MAX`, the start time of a service that must not be started again. */
  const NEVER: int := 0x7fff_ffff_ffff_ffff

  const SIGKILL: int := 9
  const SIGTERM: int := 15

  /** A byte, written as the character with that code. */
  type Byte = c: char | c as int < 256 witness '\0'
  type Text = seq<Byte>

  datatype Option<+T> = None | Some(value: T)

  datatype State = Down | Running | Exited | Signaled | Failed | Stopping

  datatype Dependency = Dependency(name: Text, soft: bool)

  datatype Channel = Out | Err

  datatype Stream = Stream(readFd: int, logFd: int, logLen: int, rotations: nat)

  const STREAM_EMPTY := Stream(-1, -1, 0, 0)

  /** The array of two streams of a service. */
  datatype Streams = Streams(out: Stream, err: Stream) {
    function At(c: Channel): Stream {
      if c == Out then out else err
    }

    function Set(c: Channel, st: Stream): Streams {
      if c == Out then Streams(st, err) else Streams(out, st)
    }
  }

  datatype Service = Service(
    active: bool, present: bool, stopping: bool, manualStart: bool,
    name: Text, dir: Text,
    pid: int, streams: Streams,
    restartAt: int, startedAt: int, restarts: nat,
    state: State, autoStart: bool, once: bool,
    deps: seq<Dependency>,
    hasLog: bool, logPid: int, logState: State, logStopping: bool)

  /** `SERVICE_EMPTY`: what a slot holds before its registration is filled in. */
  const SERVICE_EMPTY := Service(
    false, false, false, false, [], [], -1, Streams(STREAM_EMPTY, STREAM_EMPTY),
    0, 0, 0, Down, true, false, [], false, -1, Down, false)

  /** A slot of the zeroed static table the program starts with. */
  const SERVICE_ZERO := Service(
    false, false, false, false, [], [], 0, Streams(Stream(0, 0, 0, 0), Stream(0, 0, 0, 0)),
    0, 0, 0, Down, false, false, [], false, 0, Down, false)

  predicate Named(s: Service, name: Text) {
    s.active && s.name == name
  }

  /** The first active slot bearing `name`. */
  function FindByName(svcs: seq<Service>, name: Text): (k: Option<nat>)
    ensures k.Some? ==> k.value < |svcs| && Named(svcs[k.value], name)
    ensures k.Some? ==> forall j :: 0 <= j < k.value ==> !Named(svcs[j], name)
    ensures k.None? ==> forall j :: 0 <= j < |svcs| ==> !Named(svcs[j], name)
  {
    FindNameFrom(svcs, name, 0)
  }

  function FindNameFrom(svcs: seq<Service>, name: Text, i: nat): (k: Option<nat>)
    requires i <= |svcs|
    ensures k.Some? ==> i <= k.value < |svcs| && Named(svcs[k.value], name)
    ensures k.Some? ==> forall j :: i <= j < k.value ==> !Named(svcs[j], name)
    ensures k.None? ==> forall j :: i <= j < |svcs| ==> !Named(svcs[j], name)
    decreases |svcs| - i
  {
    if i == |svcs| then None
    else if Named(svcs[i], name) then Some(i)
    else FindNameFrom(svcs, name, i + 1)
  }

  /** Two tables with the same names in the same active slots. */
  ghost predicate SameNames(a: seq<Service>, b: seq<Service>) {
    && |a| == |b|
    && forall i :: 0 <= i < |a| ==> a[i].active == b[i].active && a[i].name == b[i].name && a[i].deps == b[i].deps
  }

  lemma FindByNameSame(a: seq<Service>, b: seq<Service>, name: Text)
    requires SameNames(a, b)
    ensures FindByName(a, name) == FindByName(b, name)
  {
    var k, l := FindByName(a, name), FindByName(b, name);
    if k.Some? {
      assert Named(b[k.value], name);
    }
    if l.Some? {
      assert Named(a[l.value], name);
    }
  }

  /** A service that the dependency `d` waits for is running; soft dependencies wait for nothing. */
  predicate Up(svcs: seq<Service>, d: Dependency) {
    d.soft || (var k := FindByName(svcs, d.name); k.Some? && svcs[k.value].state == Running)
  }

  predicate DepsSatisfied(s: Service, svcs: seq<Service>) {
    forall d :: d in s.deps ==> Up(svcs, d)
  }

  predicate UniqueNames(svcs: seq<Service>) {
    forall i, j :: 0 <= i < j < |svcs| && svcs[i].active && svcs[j].active ==> svcs[i].name != svcs[j].name
  }

  predicate UniqueDirs(svcs: seq<Service>) {
    forall i, j :: 0 <= i < j < |svcs| && svcs[i].active && svcs[j].active ==> svcs[i].dir != svcs[j].dir
  }
}
