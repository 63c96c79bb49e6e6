/**
 What draining a service does, as predicates on steps: a read, then what becomes of the chunk it returned, over
 and over until a read does not fill the buffer. While nothing fails, what is read for a log file is written to it.
 */
module Drains {
  import opened Types
  import opened KernelAnswers
  import opened Machine
  import opened Ledger
  import opened FileSystem
  import opened LogFiles
  import opened Logs

  /** The read filled the drain buffer. */
  predicate Full(r: Chunk) {
    r.Data? && |r.b| == 4096
  }

  predicate Ends(r: Chunk) {
    r.Eof? || r.Broken?
  }

  predicate OnSlot(e: Event, i: nat, c: Channel) {
    e.Do? && e.i == i && e.a.Io? && e.a.c == c
  }

  /** Every event is a step on channel `c` of slot `i`. */
  predicate OnStream(es: seq<Event>, i: nat, c: Channel) {
    forall k :: 0 <= k < |es| ==> OnSlot(es[k], i, c)
  }

  /** All of the data is written, or the log is given up after a part of it. */
  predicate Appends(i: nat, c: Channel, data: Text, es: seq<Event>) {
    |es| == 1 && OnSlot(es[0], i, c) && (es[0].a.op == Wrote(data) || (es[0].a.op.CloseLog? && es[0].a.op.b < data))
  }

  predicate Opens(i: nat, c: Channel, rotated: bool, e: Event) {
    OnSlot(e, i, c) && e.a.op.OpenLog? && e.a.op.rotated == rotated
  }

  /** The log is rotated exactly when it would exceed its limit; its size is not looked at again. */
  predicate RotatesAndAppends(st: Stream, i: nat, c: Channel, data: Text, es: seq<Event>) {
    if st.logLen + |data| > 1_048_576 then
      es != [] && Opens(i, c, true, es[0]) && if es[0].a.op.fd < 0 then |es| == 1 else Appends(i, c, data, es[1..])
    else Appends(i, c, data, es)
  }

  /** The steps of `write_log` on the stream `st`: the log is opened if it is not open; without one that is all. */
  predicate Writes(st: Stream, i: nat, c: Channel, data: Text, es: seq<Event>) {
    if st.logFd < 0 then
      es != [] && Opens(i, c, false, es[0])
      && if es[0].a.op.fd < 0 then |es| == 1 else RotatesAndAppends(StreamAfter(st, es[0].a.op), i, c, data, es[1..])
    else RotatesAndAppends(st, i, c, data, es)
  }

  predicate Reads(e: Event, i: nat, c: Channel) {
    OnSlot(e, i, c) && e.a.op.Took?
  }

  /** One turn of the loop of `drain_stream` on a service `s`. */
  predicate ChunkSteps(s: Service, i: nat, c: Channel, es: seq<Event>) {
    es != [] && Reads(es[0], i, c) &&
    match es[0].a.op.r
    case Data(b) => if s.hasLog then es[1..] == [] else Writes(s.streams.At(c), i, c, b, es[1..])
    case Again => es[1..] == []
    case Eof => es[1..] == [Do(i, Io(c, CloseRead))]
    case Broken => es[1..] == [Do(i, Io(c, CloseRead))]
  }

  predicate FullRead(es: seq<Event>) {
    es != [] && es[0].Do? && es[0].a.Io? && es[0].a.op.Took? && Full(es[0].a.op.r)
  }

  /** Turn after turn, from the world `u`. */
  ghost predicate Chunks(u: World, i: nat, c: Channel, chunks: seq<seq<Event>>) {
    i < |u.svcs| &&
    forall k :: 0 <= k < |chunks| ==>
      LegalRun(u, Joined(chunks[..k])) && ChunkSteps(Run(u, Joined(chunks[..k])).svcs[i], i, c, chunks[k])
  }

  /** A pipe that is open is read until a read does not fill the buffer; one that is not is left alone. */
  ghost predicate Through(st: Stream, chunks: seq<seq<Event>>) {
    if st.readFd < 0 then chunks == []
    else chunks != [] && (forall k :: 0 <= k < |chunks| - 1 ==> FullRead(chunks[k])) && !FullRead(chunks[|chunks| - 1])
  }

  /** The steps of `drain_stream`. */
  ghost predicate Drained(u: World, i: nat, c: Channel, es: seq<Event>) {
    exists chunks :: es == Joined(chunks) && Chunks(u, i, c, chunks) && Through(u.svcs[i].streams.At(c), chunks)
  }

  /** The stream that comes `k`th in `drain_all_once`, if its slot is in use. */
  ghost predicate DrainedNext(u: World, k: nat, es: seq<Event>) {
    var i, c := k / 2, if k % 2 == 0 then Out else Err;
    if i < |u.svcs| && u.svcs[i].active then Drained(u, i, c, es) else es == []
  }

  /** From the world `v` on, stream after stream has been drained. */
  ghost predicate AllDrained(v: World, parts: seq<seq<Event>>) {
    forall k :: 0 <= k < |parts| ==>
      LegalRun(v, Joined(parts[..k])) && DrainedNext(Run(v, Joined(parts[..k])), k, parts[k])
  }

  // ---------------------------------------------------------------- one stream, as bytes

  /** What the steps carry, wherever it is logged. */
  function Carried(es: seq<Event>, k: Side): Text {
    if es == [] then []
    else
      var e := es[|es| - 1];
      Carried(es[..|es| - 1], k) + if e.Do? && e.a.Io? then Payload(e.a.op, k) else []
  }

  lemma CarriedOne(e: Event, k: Side)
    ensures Carried([e], k) == if e.Do? && e.a.Io? then Payload(e.a.op, k) else []
  {
    assert [e][..0] == [] && Carried([], k) == [];
  }

  lemma {:induction false} CarriedConcat(a: seq<Event>, b: seq<Event>, k: Side)
    ensures Carried(a + b, k) == Carried(a, k) + Carried(b, k)
    decreases |b|
  {
    hide Payload, Carried;
    if b == [] {
      assert a + b == a;
      CarriedNone(k);
    } else {
      var c, e := b[..|b| - 1], b[|b| - 1];
      assert b == c + [e] && a + b == a + c + [e];
      CarriedConcat(a, c, k);
      CarriedMore(c, e, k);
      CarriedMore(a + c, e, k);
      Assoc(Carried(a, k), Carried(c, k), Carried([e], k));
    }
  }

  lemma CarriedNone(k: Side)
    ensures Carried([], k) == []
  {
  }

  lemma CarriedMore(a: seq<Event>, e: Event, k: Side)
    ensures Carried(a + [e], k) == Carried(a, k) + Carried([e], k)
  {
    hide Payload;
    assert (a + [e])[..|a|] == a;
    CarriedOne(e, k);
  }

  lemma StreamStep(w: World, e: Event, i: nat, c: Channel)
    requires Legal(w, e) && OnSlot(e, i, c)
    ensures i < |w.svcs| && w.svcs[i].active
    ensures Step(w, e).svcs[i].dir == w.svcs[i].dir
    ensures forall p, k ::
              Bytes(w.svcs, e, p, k) ==
              if LogPath(w.svcs[i].dir, c) == p then Payload(e.a.op, k) else []
  {
    hide Handles, LogPath, Payload, AllowedIo, ActionSends;
  }

  /** On one stream all bytes are for one log file. */
  lemma {:induction false} StreamTotal(w: World, es: seq<Event>, i: nat, c: Channel, p: Text, k: Side)
    requires LegalRun(w, es) && OnStream(es, i, c) && i < |w.svcs|
    ensures Run(w, es).svcs[i].dir == w.svcs[i].dir
    ensures Total(w, es, p, k) ==
            if LogPath(w.svcs[i].dir, c) == p then Carried(es, k) else []
    decreases |es|
  {
    hide Step, Legal, Bytes, LogPath, Payload;
    if es != [] {
      StreamTotal(w, es[..|es| - 1], i, c, p, k);
      StreamStep(Run(w, es[..|es| - 1]), es[|es| - 1], i, c);
    }
  }

  lemma OpensCarry(i: nat, c: Channel, rotated: bool, e: Event, rest: seq<Event>)
    requires Opens(i, c, rotated, e) && OnStream(rest, i, c)
    ensures OnStream([e] + rest, i, c)
    ensures forall k :: Carried([e] + rest, k) == Carried(rest, k)
    ensures Lossy([e] + rest) <==> e.a.op.fd < 0 || Lossy(rest)
  {
    forall k ensures Carried([e] + rest, k) == Carried(rest, k) {
      CarriedOne(e, k);
      CarriedConcat([e], rest, k);
    }
    LossyConcat([e], rest);
    assert Lossy([e]) <==> Fails([e][0]);
  }

  lemma AppendsCarry(i: nat, c: Channel, data: Text, es: seq<Event>)
    requires Appends(i, c, data, es)
    ensures OnStream(es, i, c) && Carried(es, Read) == []
    ensures Carried(es, Written) <= data && (Lossy(es) <==> Carried(es, Written) != data)
  {
    CarriedOne(es[0], Read);
    CarriedOne(es[0], Written);
    assert es == [es[0]];
    assert Lossy(es) <==> Fails(es[0]);
  }

  lemma NothingCarried(es: seq<Event>, i: nat, c: Channel, rotated: bool)
    requires |es| == 1 && Opens(i, c, rotated, es[0]) && es[0].a.op.fd < 0
    ensures OnStream(es, i, c) && Lossy(es) && forall k :: Carried(es, k) == []
  {
    assert es == [es[0]] && Fails(es[0]);
    forall k {
      CarriedOne(es[0], k);
    }
  }

  lemma RotatesCarry(st: Stream, i: nat, c: Channel, data: Text, es: seq<Event>)
    requires RotatesAndAppends(st, i, c, data, es)
    ensures OnStream(es, i, c) && Carried(es, Read) == []
    ensures Carried(es, Written) <= data && (data != [] ==> (Lossy(es) <==> Carried(es, Written) != data))
  {
    hide Lossy, Carried, Appends, OnStream;
    if st.logLen + |data| > LOG_LIMIT {
      if es[0].a.op.fd < 0 {
        NothingCarried(es, i, c, true);
      } else {
        AppendsCarry(i, c, data, es[1..]);
        OpensCarry(i, c, true, es[0], es[1..]);
        assert es == [es[0]] + es[1..];
      }
    } else {
      AppendsCarry(i, c, data, es);
    }
  }

  /** What is written is a prefix of the data, all of it unless a step fails. */
  lemma WritesCarry(st: Stream, i: nat, c: Channel, data: Text, es: seq<Event>)
    requires Writes(st, i, c, data, es)
    ensures OnStream(es, i, c) && Carried(es, Read) == []
    ensures Carried(es, Written) <= data && (data != [] ==> (Lossy(es) <==> Carried(es, Written) != data))
  {
    hide Lossy, Carried, RotatesAndAppends, OnStream;
    if st.logFd < 0 {
      if es[0].a.op.fd < 0 {
        NothingCarried(es, i, c, false);
      } else {
        RotatesCarry(StreamAfter(st, es[0].a.op), i, c, data, es[1..]);
        OpensCarry(i, c, false, es[0], es[1..]);
        assert es == [es[0]] + es[1..];
      }
    } else {
      RotatesCarry(st, i, c, data, es);
    }
  }

  lemma ReadsCarry(e: Event, i: nat, c: Channel, rest: seq<Event>)
    requires Reads(e, i, c) && OnStream(rest, i, c)
    ensures OnStream([e] + rest, i, c) && (Lossy([e] + rest) <==> Lossy(rest))
    ensures Carried([e] + rest, Read) == (if e.a.op.r.Data? then e.a.op.r.b else []) + Carried(rest, Read)
    ensures Carried([e] + rest, Written) == Carried(rest, Written)
  {
    forall k ensures Carried([e] + rest, k) == Carried([e], k) + Carried(rest, k) {
      CarriedConcat([e], rest, k);
    }
    CarriedOne(e, Read);
    CarriedOne(e, Written);
    LossyConcat([e], rest);
    assert Lossy([e]) <==> Fails([e][0]);
  }

  lemma ClosesCarry(i: nat, c: Channel, es: seq<Event>)
    requires es == [] || es == [Do(i, Io(c, CloseRead))]
    ensures OnStream(es, i, c) && !Lossy(es) && forall k :: Carried(es, k) == []
  {
    forall k ensures Carried(es, k) == [] {
      if es != [] {
        CarriedOne(es[0], k);
      }
    }
  }

  /** A chunk that is read is written, unless a step fails or the service has a logger of its own. */
  lemma ChunkCarries(s: Service, i: nat, c: Channel, es: seq<Event>)
    requires ChunkSteps(s, i, c, es)
    ensures OnStream(es, i, c)
    ensures if s.hasLog then Carried(es, Written) == []
            else Carried(es, Written) <= Carried(es, Read) && (!Lossy(es) ==> Carried(es, Written) == Carried(es, Read))
  {
    hide Lossy, Carried, Writes, OnStream;
    var e, rest := es[0], es[1..];
    assert es == [e] + rest;
    if e.a.op.r.Data? && !s.hasLog {
      WritesCarry(s.streams.At(c), i, c, e.a.op.r.b, rest);
    } else {
      ClosesCarry(i, c, rest);
    }
    ReadsCarry(e, i, c, rest);
  }

  /** What can be read from has no logger of its own. */
  lemma ReadIsLogged(u: World, i: nat, c: Channel, es: seq<Event>)
    requires Inv(u) && i < |u.svcs| && ChunkSteps(u.svcs[i], i, c, es) && LegalRun(u, es)
    ensures !u.svcs[i].hasLog
  {
    hide Writes, SlotOk, ProcLedger, FdLedger, Handles, Step;
    RunPrefix(u, es, 0);
    EmptyRun(u);
    assert es[..0] == [];
    assert Legal(u, es[0]) && Deaf(u.svcs[i]);
    assert AllowedIo(u, u.svcs[i].streams.At(c), es[0].a.op);
  }

  lemma ChunkBalanced(u: World, i: nat, c: Channel, es: seq<Event>)
    requires Inv(u) && i < |u.svcs| && ChunkSteps(u.svcs[i], i, c, es) && LegalRun(u, es)
    ensures Balanced(u, es)
  {
    hide Legal, Step, LegalRun, Run, Total, Carried, Lossy, ChunkSteps, LogPath, OnStream, Inv;
    ReadIsLogged(u, i, c, es);
    ChunkCarries(u.svcs[i], i, c, es);
    forall p | !Lossy(es) ensures Total(u, es, p, Written) == Total(u, es, p, Read) {
      StreamTotal(u, es, i, c, p, Written);
      StreamTotal(u, es, i, c, p, Read);
    }
  }

  // ---------------------------------------------------------------- composition

  lemma JoinedMore(parts: seq<seq<Event>>, part: seq<Event>)
    ensures Joined(parts + [part]) == Joined(parts) + part
  {
    assert (parts + [part])[..|parts|] == parts;
  }

  lemma JoinedTake(parts: seq<seq<Event>>, k: nat)
    requires k < |parts|
    ensures Joined(parts[..k + 1]) == Joined(parts[..k]) + parts[k]
  {
    JoinedMore(parts[..k], parts[k]);
    assert parts[..k + 1] == parts[..k] + [parts[k]];
  }

  lemma ChunksMore(u: World, i: nat, c: Channel, chunks: seq<seq<Event>>, chunk: seq<Event>)
    requires Chunks(u, i, c, chunks) && LegalRun(u, Joined(chunks))
    requires ChunkSteps(Run(u, Joined(chunks)).svcs[i], i, c, chunk)
    ensures Chunks(u, i, c, chunks + [chunk]) && Joined(chunks + [chunk]) == Joined(chunks) + chunk
  {
    hide LegalRun, Run, ChunkSteps, Joined;
    JoinedMore(chunks, chunk);
    var more := chunks + [chunk];
    assert more[..|chunks|] == chunks;
    forall k | 0 <= k < |more|
      ensures LegalRun(u, Joined(more[..k])) && ChunkSteps(Run(u, Joined(more[..k])).svcs[i], i, c, more[k])
    {
      if k < |chunks| {
        assert more[..k] == chunks[..k];
      }
    }
  }

  lemma ChunksFewer(u: World, i: nat, c: Channel, chunks: seq<seq<Event>>)
    requires Chunks(u, i, c, chunks) && chunks != []
    ensures Chunks(u, i, c, chunks[..|chunks| - 1])
  {
    hide LegalRun, Run, ChunkSteps, Joined;
    var fewer := chunks[..|chunks| - 1];
    forall k | 0 <= k < |fewer|
      ensures LegalRun(u, Joined(fewer[..k])) && ChunkSteps(Run(u, Joined(fewer[..k])).svcs[i], i, c, fewer[k])
    {
      assert fewer[..k] == chunks[..k];
    }
  }

  lemma BalancedNone(u: World)
    ensures Balanced(u, [])
  {
  }

  lemma {:induction false} ChunksBalanced(u: World, i: nat, c: Channel, chunks: seq<seq<Event>>)
    requires Inv(u) && Chunks(u, i, c, chunks) && LegalRun(u, Joined(chunks))
    ensures Balanced(u, Joined(chunks)) && OnStream(Joined(chunks), i, c)
    decreases |chunks|
  {
    hide Legal, Step, LegalRun, Run, ChunkSteps, Balanced, Inv;
    if chunks == [] {
      BalancedNone(u);
    } else {
      var n := |chunks| - 1;
      ChunksFewer(u, i, c, chunks);
      ChunksBalanced(u, i, c, chunks[..n]);
      var v := Run(u, Joined(chunks[..n]));
      RunSplit(u, Joined(chunks[..n]), chunks[n]);
      RunKeeps(u, Joined(chunks[..n]));
      ChunkBalanced(v, i, c, chunks[n]);
      ChunkCarries(v.svcs[i], i, c, chunks[n]);
      BalancedConcat(u, Joined(chunks[..n]), chunks[n]);
    }
  }

  /** While no step fails, draining a stream writes to its log file exactly what it reads. */
  lemma DrainedBalanced(u: World, i: nat, c: Channel, es: seq<Event>)
    requires Inv(u) && Drained(u, i, c, es) && LegalRun(u, es)
    ensures Balanced(u, es) && OnStream(es, i, c)
  {
    hide Inv, Legal, Step, LegalRun, Run, Balanced, OnStream, ChunkSteps, Through, Joined;
    var chunks :| es == Joined(chunks) && Chunks(u, i, c, chunks) && Through(u.svcs[i].streams.At(c), chunks);
    ChunksBalanced(u, i, c, chunks);
  }

  lemma AllDrainedMore(v: World, parts: seq<seq<Event>>, part: seq<Event>)
    requires AllDrained(v, parts) && LegalRun(v, Joined(parts)) && DrainedNext(Run(v, Joined(parts)), |parts|, part)
    ensures AllDrained(v, parts + [part]) && Joined(parts + [part]) == Joined(parts) + part
  {
    hide LegalRun, Run, DrainedNext, Joined;
    JoinedMore(parts, part);
    var more := parts + [part];
    assert more[..|parts|] == parts;
    forall k | 0 <= k < |more|
      ensures LegalRun(v, Joined(more[..k])) && DrainedNext(Run(v, Joined(more[..k])), k, more[k])
    {
      if k < |parts| {
        assert more[..k] == parts[..k];
      }
    }
  }

  lemma AllDrainedFewer(v: World, parts: seq<seq<Event>>)
    requires AllDrained(v, parts) && parts != []
    ensures AllDrained(v, parts[..|parts| - 1])
  {
    hide LegalRun, Run, DrainedNext, Joined;
    var fewer := parts[..|parts| - 1];
    forall k | 0 <= k < |fewer|
      ensures LegalRun(v, Joined(fewer[..k])) && DrainedNext(Run(v, Joined(fewer[..k])), k, fewer[k])
    {
      assert fewer[..k] == parts[..k];
    }
  }

  /** While no step fails, draining everything writes to each log file exactly what is read for it. */
  lemma {:induction false} AllDrainedBalanced(v: World, parts: seq<seq<Event>>)
    requires Inv(v) && AllDrained(v, parts) && LegalRun(v, Joined(parts))
    ensures Balanced(v, Joined(parts))
    decreases |parts|
  {
    hide Inv, Legal, Step, LegalRun, Run, Drained, Balanced;
    if parts == [] {
      BalancedNone(v);
    } else {
      var n := |parts| - 1;
      AllDrainedFewer(v, parts);
      AllDrainedBalanced(v, parts[..n]);
      var u := Run(v, Joined(parts[..n]));
      RunSplit(v, Joined(parts[..n]), parts[n]);
      RunKeeps(v, Joined(parts[..n]));
      if n / 2 < |u.svcs| && u.svcs[n / 2].active {
        DrainedBalanced(u, n / 2, if n % 2 == 0 then Out else Err, parts[n]);
      } else {
        BalancedNone(u);
      }
      BalancedConcat(v, Joined(parts[..n]), parts[n]);
    }
  }

  // ---------------------------------------------------------------- what is read, and what fails

  function TakenBy(e: Event): seq<Chunk> {
    if e.Do? && e.a.Io? && e.a.op.Took? then [e.a.op.r] else []
  }

  /** The results of the reads among the steps. */
  function Taken(es: seq<Event>): seq<Chunk> {
    if es == [] then [] else Taken(es[..|es| - 1]) + TakenBy(es[|es| - 1])
  }

  lemma {:induction false} TakenConcat(a: seq<Event>, b: seq<Event>)
    ensures Taken(a + b) == Taken(a) + Taken(b)
    decreases |b|
  {
    if b == [] {
      assert a + b == a;
    } else {
      TakenConcat(a, b[..|b| - 1]);
      assert (a + b)[..|a + b| - 1] == a + b[..|b| - 1];
    }
  }

  /** The answers of the kernel that a step stands for. */
  function AskedBy(e: Event): seq<Answer> {
    match e
    case Reap(pid, _, _, _, asked) => [Waited(pid)] + asked
    case Idle(pid) => [Waited(pid)]
    case Script(asked) => asked
    case Do(_, Launch(_, _, o)) => o.logger + o.main
    case Do(_, Io(_, OpenLog(fd, _, _))) => [Opened(fd)]
    case _ => []
  }

  /** All the answers that the steps stand for, in order. */
  function Asked(es: seq<Event>): seq<Answer> {
    if es == [] then [] else Asked(es[..|es| - 1]) + AskedBy(es[|es| - 1])
  }

  lemma {:induction false} AskedConcat(a: seq<Event>, b: seq<Event>)
    ensures Asked(a + b) == Asked(a) + Asked(b)
    decreases |b|
  {
    hide AskedBy, Asked;
    if b == [] {
      assert a + b == a;
      NothingAsked();
    } else {
      var c, e := b[..|b| - 1], b[|b| - 1];
      assert b == c + [e] && a + b == a + c + [e];
      AskedConcat(a, c);
      AskedMore(c, e);
      AskedMore(a + c, e);
      assert Asked(a) + Asked(c) + AskedBy(e) == Asked(a) + (Asked(c) + AskedBy(e));
    }
  }

  lemma NothingAsked()
    ensures Asked([]) == []
  {
  }

  lemma AskedMore(a: seq<Event>, e: Event)
    ensures Asked(a + [e]) == Asked(a) + AskedBy(e)
  {
    hide AskedBy;
    assert (a + [e])[..|a|] == a;
  }

  /** How often the kernel has refused to open or to write a log in a step. */
  function RefusedBy(e: Event): nat {
    if Fails(e) then 1
    else if e.Do? && e.a.Launch? && Direct(e.a.o) then
      (if e.a.o.outLog < 0 then 1 else 0) + if e.a.o.errLog < 0 then 1 else 0
    else 0
  }

  function Refused(es: seq<Event>): nat {
    if es == [] then 0 else Refused(es[..|es| - 1]) + RefusedBy(es[|es| - 1])
  }

  lemma {:induction false} RefusedConcat(a: seq<Event>, b: seq<Event>)
    ensures Refused(a + b) == Refused(a) + Refused(b)
    decreases |b|
  {
    hide RefusedBy;
    if b == [] {
      assert a + b == a;
    } else {
      RefusedConcat(a, b[..|b| - 1]);
      assert (a + b)[..|a + b| - 1] == a + b[..|b| - 1];
    }
  }

  /** What is lost is lost because the kernel has refused something. */
  lemma {:induction false} NothingRefused(es: seq<Event>)
    requires Refused(es) == 0
    ensures !Lossy(es)
  {
    if es != [] {
      var c, e := es[..|es| - 1], es[|es| - 1];
      NothingRefused(c);
      assert es == c + [e];
      LossyConcat(c, [e]);
      assert Lossy([e]) <==> Fails([e][0]);
    }
  }

  lemma RefusedOne(e: Event)
    ensures Refused([e]) == RefusedBy(e) && Taken([e]) == TakenBy(e) && Asked([e]) == AskedBy(e)
  {
    hide RefusedBy, AskedBy;
    assert [e][..0] == [] && Refused([]) == 0 && Taken([]) == [] && Asked([]) == [];
  }

  // ---------------------------------------------------------------- no bound on a log

  /** Slot `i` has an open log on channel `c`, whose path the other channel does not share. */
  ghost predicate OpenLogged(root: Text, w: World, f: Files, i: nat, c: Channel) {
    && Inv(w) && LogsOk(root, w.svcs, f) && i < |w.svcs| && w.svcs[i].active && w.svcs[i].streams.At(c).logFd >= 0
    && LogPath(w.svcs[i].dir, Out) != LogPath(w.svcs[i].dir, Err)
  }

  lemma OpenLoggedFacts(root: Text, w: World, f: Files, i: nat, c: Channel)
    requires OpenLogged(root, w, f, i, c)
    ensures Inv(w) && LogsOk(root, w.svcs, f) && i < |w.svcs| && w.svcs[i].active && w.svcs[i].streams.At(c).logFd >= 0
    ensures var st, p := w.svcs[i].streams.At(c), LogPath(w.svcs[i].dir, c);
            Leads(f, st.logFd, p) && st.logLen == |Content(f, p)| && LogBelow(root, p)
  {
    hide Inv, LogPath, Leads, Content, Below, LogBelow, Plain;
    var s := w.svcs[i];
    assert SlotLogged(root, f, s);
    LogLeads(f, s, c);
    LogOfSlot(root, s, c);
    assert c == Out || c == Err;
  }

  /** Opening again the log that a descriptor leads to changes nothing. */
  lemma SameAgain(f: Files, dir: Text, c: Channel, fd: int)
    requires fd >= 0 && Leads(f, fd, LogPath(dir, c))
    ensures LogReopened(f, dir, c, fd, |Content(f, LogPath(dir, c))|, f)
  {
    hide LogPath, Content;
    assert f.target[fd := f.names[LogPath(dir, c)]] == f.target;
    assert OpenedAs(f, LogPath(dir, c), fd, f) && Moved(f, dir, c, f);
  }

  lemma IoStep(w: World, i: nat, c: Channel, op: StreamOp)
    requires Legal(w, Do(i, Io(c, op))) && !op.CloseRead?
    ensures LegalRun(w, [Do(i, Io(c, op))]) && Run(w, [Do(i, Io(c, op))]) == Step(w, Do(i, Io(c, op)))
    ensures i < |w.svcs| && var s, t := w.svcs[i], Step(w, Do(i, Io(c, op))).svcs[i];
            t.active == s.active && t.dir == s.dir && t.streams.At(c) == StreamAfter(s.streams.At(c), op)
  {
    OneStep(w, Do(i, Io(c, op)));
    OpenStep(w, i, c, op);
    hide Legal, Step, LegalRun, Run, Handles;
  }

  lemma StillOpen(root: Text, w: World, f: Files, i: nat, c: Channel, op: StreamOp, g: Files)
    requires OpenLogged(root, w, f, i, c) && Legal(w, Do(i, Io(c, op))) && KeepsLogs(root, w, f, [Do(i, Io(c, op))], g)
    requires !op.CloseRead? && StreamAfter(w.svcs[i].streams.At(c), op).logFd >= 0
    ensures OpenLogged(root, Step(w, Do(i, Io(c, op))), g, i, c)
  {
    IoStep(w, i, c, op);
    StepKeeps(w, Do(i, Io(c, op)));
    hide Inv, Legal, Step, LegalRun, Run, LogsOk, LogPath, Gains;
  }

  function Size(st: Stream): nat {
    if st.logLen > 0 then st.logLen else 0
  }

  /** The steps of a call of `write_log` that nothing refuses. */
  function Granted(st: Stream, i: nat, c: Channel, data: Text): seq<Event> {
    if st.logLen + |data| > LOG_LIMIT
    then [Do(i, Io(c, OpenLog(st.logFd, Size(st), true))), Do(i, Io(c, Wrote(data)))]
    else [Do(i, Io(c, Wrote(data)))]
  }

  lemma GrantedWrites(st: Stream, i: nat, c: Channel, data: Text)
    requires st.logFd >= 0
    ensures Writes(st, i, c, data, Granted(st, i, c, data)) && !Lossy(Granted(st, i, c, data))
  {
    var es := Granted(st, i, c, data);
    if st.logLen + |data| > LOG_LIMIT {
      assert es[1..] == [Do(i, Io(c, Wrote(data)))];
    }
    forall k | 0 <= k < |es| ensures !Fails(es[k]) {
    }
  }

  lemma RotateLegal(w: World, i: nat, c: Channel)
    requires Inv(w) && i < |w.svcs| && w.svcs[i].active && w.svcs[i].streams.At(c).logFd >= 0
    ensures Legal(w, Do(i, Io(c, OpenLog(w.svcs[i].streams.At(c).logFd, Size(w.svcs[i].streams.At(c)), true))))
  {
    hide Handles, Inv;
  }

  /** A call of `write_log` that nothing refuses makes the log longer by the data, rotation or not. */
  lemma WriteAgain(root: Text, w: World, f: Files, i: nat, c: Channel, data: Text) returns (g: Files)
    requires OpenLogged(root, w, f, i, c)
    ensures var es := Granted(w.svcs[i].streams.At(c), i, c, data);
            && LegalRun(w, es) && KeepsLogs(root, w, f, es, g) && OpenLogged(root, Run(w, es), g, i, c)
            && Run(w, es).svcs[i].dir == w.svcs[i].dir
            && Content(g, LogPath(w.svcs[i].dir, c)) == Content(f, LogPath(w.svcs[i].dir, c)) + data
  {
    hide Inv, Legal, Step, LegalRun, Run, OpenLogged, KeepsLogs, LogPath, Content, Appended, Leads;
    hide LogReopened, LogsOk;
    OpenLoggedFacts(root, w, f, i, c);
    var st := w.svcs[i].streams.At(c);
    var last := Do(i, Io(c, Wrote(data)));
    if st.logLen + |data| > LOG_LIMIT {
      var first := Do(i, Io(c, OpenLog(st.logFd, Size(st), true)));
      RotateLegal(w, i, c);
      SameAgain(f, w.svcs[i].dir, c, st.logFd);
      ReopenKeeps(root, w, f, i, c, first.a.op, f);
      IoStep(w, i, c, first.a.op);
      StillOpen(root, w, f, i, c, first.a.op, f);
      var v := Step(w, first);
      g := Grow(root, v, f, i, c, data);
      KeepsMore(root, w, f, [first], f, [last], g);
      RunConcat(w, [first], [last]);
      assert [first] + [last] == Granted(st, i, c, data);
    } else {
      g := Grow(root, w, f, i, c, data);
    }
  }

  lemma Grow(root: Text, w: World, f: Files, i: nat, c: Channel, data: Text) returns (g: Files)
    requires OpenLogged(root, w, f, i, c)
    ensures var es := [Do(i, Io(c, Wrote(data)))];
            && LegalRun(w, es) && KeepsLogs(root, w, f, es, g) && OpenLogged(root, Run(w, es), g, i, c)
            && Run(w, es).svcs[i].dir == w.svcs[i].dir
            && Content(g, LogPath(w.svcs[i].dir, c)) == Content(f, LogPath(w.svcs[i].dir, c)) + data
  {
    hide Inv, Step, LegalRun, Run, OpenLogged, KeepsLogs, LogPath, Content, Appended, Leads, LogsOk, Handles;
    OpenLoggedFacts(root, w, f, i, c);
    var op := Wrote(data);
    assert Legal(w, Do(i, Io(c, op)));
    hide Legal;
    g := Appended(f, w.svcs[i].streams.At(c).logFd, data);
    WriteKeeps(root, w, f, i, c, op);
    IoStep(w, i, c, op);
    StillOpen(root, w, f, i, c, op, g);
    WriteLogged(root, w, f, i, c, op);
  }

  /** Calls of `write_log` with the same data, one after the other, that nothing refuses. */
  ghost predicate WriteCalls(w: World, i: nat, c: Channel, data: Text, calls: seq<seq<Event>>) {
    i < |w.svcs| &&
    forall k :: 0 <= k < |calls| ==>
      && LegalRun(w, Joined(calls[..k])) && !Lossy(calls[k])
      && Writes(Run(w, Joined(calls[..k])).svcs[i].streams.At(c), i, c, data, calls[k])
  }

  lemma WriteCallsMore(w: World, i: nat, c: Channel, data: Text, calls: seq<seq<Event>>, call: seq<Event>)
    requires WriteCalls(w, i, c, data, calls) && LegalRun(w, Joined(calls)) && !Lossy(call)
    requires Writes(Run(w, Joined(calls)).svcs[i].streams.At(c), i, c, data, call)
    ensures WriteCalls(w, i, c, data, calls + [call]) && Joined(calls + [call]) == Joined(calls) + call
  {
    hide LegalRun, Run, Writes, Joined, Lossy;
    JoinedMore(calls, call);
    var more := calls + [call];
    assert more[..|calls|] == calls;
    forall k | 0 <= k < |more|
      ensures LegalRun(w, Joined(more[..k])) && !Lossy(more[k])
      ensures Writes(Run(w, Joined(more[..k])).svcs[i].streams.At(c), i, c, data, more[k])
    {
      if k < |calls| {
        assert more[..k] == calls[..k];
      }
    }
  }

  /** However large `n` is, enough writes make the log longer than that, although it is rotated again and again. */
  lemma {:induction false} LogUnbounded(root: Text, w: World, f: Files, i: nat, c: Channel, data: Text, n: nat)
    returns (calls: seq<seq<Event>>, g: Files)
    requires OpenLogged(root, w, f, i, c) && data != []
    ensures WriteCalls(w, i, c, data, calls) && LegalRun(w, Joined(calls)) && KeepsLogs(root, w, f, Joined(calls), g)
    ensures OpenLogged(root, Run(w, Joined(calls)), g, i, c) && Run(w, Joined(calls)).svcs[i].dir == w.svcs[i].dir
    ensures |Content(g, LogPath(w.svcs[i].dir, c))| >= n
    decreases n
  {
    hide Inv, Legal, Step, LegalRun, Run, OpenLogged, KeepsLogs, LogPath, Content, Granted, Writes, Lossy, WriteCalls;
    OpenLoggedFacts(root, w, f, i, c);
    if n == 0 {
      calls, g := [], f;
      NoCalls(root, w, f, i, c, data);
    } else {
      var m;
      calls, m := LogUnbounded(root, w, f, i, c, data, n - 1);
      var v := Run(w, Joined(calls));
      OpenLoggedFacts(root, v, m, i, c);
      g := WriteAgain(root, v, m, i, c, data);
      var call := Granted(v.svcs[i].streams.At(c), i, c, data);
      GrantedWrites(v.svcs[i].streams.At(c), i, c, data);
      WriteCallsMore(w, i, c, data, calls, call);
      KeepsMore(root, w, f, Joined(calls), m, call, g);
      RunConcat(w, Joined(calls), call);
      calls := calls + [call];
    }
  }

  lemma NoCalls(root: Text, w: World, f: Files, i: nat, c: Channel, data: Text)
    requires i < |w.svcs|
    ensures WriteCalls(w, i, c, data, []) && Joined([]) == [] && LegalRun(w, []) && Run(w, []) == w
    ensures KeepsLogs(root, w, f, [], f)
  {
    KeepsNone(root, w, f);
  }
}
