/** Draining the output of a service into its log file, with rotation. */
module Draining {
  import opened Types
  import opened Machine
  import opened Ledger
  import opened Kernels
  import opened FileSystem
  import opened LogFiles
  import opened Logs
  import opened Drains
  import opened Supervision

  /** `t` is `s` but for its streams, and there but for the log of channel `c`. */
  predicate SameButLog(s: Service, t: Service, c: Channel) {
    && t == s.(streams := t.streams)
    && t.streams == s.streams.Set(c, t.streams.At(c))
    && t.streams.At(c).readFd == s.streams.At(c).readFd
  }

  /** `t` is `s` but for the stream of channel `c`. */
  predicate SameButStream(s: Service, t: Service, c: Channel) {
    t == s.(streams := t.streams) && t.streams == s.streams.Set(c, t.streams.At(c))
  }

  predicate StillServing(s: Service, t: Service) {
    t.active == s.active && t.dir == s.dir && t.hasLog == s.hasLog
  }

  lemma IoLog(s: Service, c: Channel, op: StreamOp)
    requires !op.CloseRead?
    ensures SameButLog(s, IoAfter(s, c, op), c) && StillServing(s, IoAfter(s, c, op))
    ensures IoAfter(s, c, op).streams.At(c) == StreamAfter(s.streams.At(c), op)
  {
  }

  lemma SameButLogMore(s: Service, t: Service, u: Service, c: Channel)
    requires SameButLog(s, t, c) && SameButLog(t, u, c)
    ensures SameButLog(s, u, c) && StillServing(s, t) && StillServing(s, u)
  {
  }

  lemma LogIsStream(s: Service, t: Service, c: Channel)
    requires SameButLog(s, t, c)
    ensures SameButStream(s, t, c) && t.streams.At(c).readFd == s.streams.At(c).readFd && StillServing(s, t)
  {
  }

  lemma SameButStreamSelf(s: Service, c: Channel)
    ensures SameButStream(s, s, c)
  {
  }

  lemma SameButStreamMore(s: Service, t: Service, u: Service, c: Channel)
    requires SameButStream(s, t, c) && SameButStream(t, u, c)
    ensures SameButStream(s, u, c) && StillServing(s, t) && StillServing(s, u)
  {
  }

  /** Two stretches: refusals add up, results of reads follow each other. */
  lemma Together(a: seq<Event>, b: seq<Event>)
    ensures Refused(a + b) == Refused(a) + Refused(b) && Taken(a + b) == Taken(a) + Taken(b)
  {
    RefusedConcat(a, b);
    TakenConcat(a, b);
  }

  lemma NothingYet()
    ensures Refused([]) == 0 && Taken([]) == []
  {
  }

  // ---------------------------------------------------------------- writing

  /** `write_all`: the data is appended, all of it exactly when the call succeeds; otherwise a write has failed. */
  method WriteAll(kernel: Kernel, fd: int, data: Text) returns (ok: bool, ghost done: Text)
    requires fd in kernel.fds
    modifies kernel`files, kernel`refusals
    ensures done <= data && (ok <==> done == data) && kernel.files == Appended(old(kernel.files), fd, done)
    ensures kernel.refusals == old(kernel.refusals) + Flag(!ok)
  {
    hide Appended;
    var rest := data;
    done := [];
    AppendNothing(kernel.files, fd);
    while rest != []
      invariant data == done + rest && kernel.files == Appended(old(kernel.files), fd, done)
      invariant kernel.refusals == old(kernel.refusals)
      decreases |rest|
    {
      var r := kernel.Write(fd, rest);
      if r <= 0 {
        return false, done;
      }
      AppendTwice(old(kernel.files), fd, done, rest[..r]);
      assert done + rest[..r] + rest[r..] == data;
      done := done + rest[..r];
      rest := rest[r..];
    }
    ok := true;
  }

  /** `open_log` or `rotate_log`: the log is another file, or none, under the same path. */
  method Reopen(sup: Supervisor, i: nat, c: Channel, rotate: bool, ghost w: World, ghost h: seq<Event>,
                ghost es: seq<Event>)
    returns (ghost e: Event)
    requires sup.Did(w, h, es) && i < sup.services.Length && sup.services[i].active
    modifies sup.services, sup.kernel`fds, sup.kernel`files
    modifies sup.kernel`refusals, sup.kernel`answers, sup`history
    ensures sup.Did(w, h, es + [e]) && Opens(i, c, rotate, e)
    ensures sup.services[..] == old(sup.services[..])[i := sup.services[i]]
    ensures SameButLog(old(sup.services[i]), sup.services[i], c) && sup.services[i].active
    ensures sup.services[i].streams.At(c) == StreamAfter(old(sup.services[i].streams.At(c)), e.a.op)
    ensures sup.kernel.refusals == old(sup.kernel.refusals) + Refused([e])
  {
    hide IoAfter, Run, LegalRun, Inv, Logged, Step, Legal, LogReopened, Supervisor.Did, Refused;
    var ts: nat := *;
    ghost var s := sup.services[i];
    ghost var op := sup.ReopenLog(i, c, rotate, ts, w, h, es);
    IoLog(s, c, op);
    e := Do(i, Io(c, op));
    RefusedOne(e);
  }

  /** The last part of `write_log`: the data is written, or the log is given up. */
  method AppendChunk(sup: Supervisor, i: nat, c: Channel, data: Text, ghost w: World, ghost h: seq<Event>,
                     ghost es: seq<Event>)
    returns (ghost e: Event)
    requires sup.Did(w, h, es) && i < sup.services.Length && sup.services[i].active
    requires sup.services[i].streams.At(c).logFd >= 0
    modifies sup.services, sup.kernel`fds, sup.kernel`files, sup.kernel`refusals, sup`history
    ensures sup.Did(w, h, es + [e]) && Appends(i, c, data, [e])
    ensures sup.services[..] == old(sup.services[..])[i := sup.services[i]]
    ensures SameButLog(old(sup.services[i]), sup.services[i], c)
    ensures sup.kernel.refusals == old(sup.kernel.refusals) + Refused([e])
  {
    hide IoAfter, Step, Legal, Run, LegalRun, Inv, Logged, SameButLog, Supervisor.Did, Appended, Refused;
    var s := sup.services[i];
    var fd := s.streams.At(c).logFd;
    ghost var f := sup.kernel.files;
    sup.StreamHeld(w, h, es, i, End(c, true));
    sup.TracedNow(w, h, es);
    var ok;
    ghost var done;
    ok, done := WriteAll(sup.kernel, fd, data);
    if ok {
      sup.GrowLog(i, c, data, f, w, h, es);
      IoLog(s, c, Wrote(data));
      e := Do(i, Io(c, Wrote(data)));
    } else {
      sup.CloseLogEnd(i, c, done, f, w, h, es);
      IoLog(s, c, CloseLog(done));
      e := Do(i, Io(c, CloseLog(done)));
    }
    RefusedOne(e);
  }

  /** The log is rotated before it would exceed its limit, then written to. */
  method RotateAndAppend(sup: Supervisor, i: nat, c: Channel, data: Text, ghost w: World, ghost h: seq<Event>,
                         ghost es: seq<Event>)
    returns (ghost steps: seq<Event>)
    requires sup.Did(w, h, es) && i < sup.services.Length && sup.services[i].active
    requires sup.services[i].streams.At(c).logFd >= 0
    modifies sup.services, sup.kernel`fds, sup.kernel`files
    modifies sup.kernel`refusals, sup.kernel`answers, sup`history
    ensures sup.Did(w, h, es + steps) && RotatesAndAppends(old(sup.services[i]).streams.At(c), i, c, data, steps)
    ensures sup.services[..] == old(sup.services[..])[i := sup.services[i]]
    ensures SameButLog(old(sup.services[i]), sup.services[i], c)
    ensures sup.kernel.refusals == old(sup.kernel.refusals) + Refused(steps)
  {
    hide Refused, Fails, SameButLog, Appends, Supervisor.Did;
    var s := sup.services[i];
    if s.streams.At(c).logLen + |data| > LOG_LIMIT {
      ghost var e := Reopen(sup, i, c, true, w, h, es);
      steps := [e];
      if sup.services[i].streams.At(c).logFd >= 0 {
        ghost var t := sup.services[i];
        ghost var last := AppendChunk(sup, i, c, data, w, h, es + steps);
        SameButLogMore(s, t, sup.services[i], c);
        Together(steps, [last]);
        assert es + steps + [last] == es + (steps + [last]);
        assert (steps + [last])[1..] == [last];
        steps := steps + [last];
      }
    } else {
      ghost var last := AppendChunk(sup, i, c, data, w, h, es);
      steps := [last];
    }
  }

  /** The log is opened if need be, rotated if need be, then written to. */
  method StoreChunk(sup: Supervisor, i: nat, c: Channel, data: Text, ghost w: World, ghost h: seq<Event>,
                    ghost es: seq<Event>)
    returns (ghost steps: seq<Event>)
    requires sup.Did(w, h, es) && i < sup.services.Length && sup.services[i].active
    modifies sup.services, sup.kernel`fds, sup.kernel`files
    modifies sup.kernel`refusals, sup.kernel`answers, sup`history
    ensures sup.Did(w, h, es + steps) && Writes(old(sup.services[i]).streams.At(c), i, c, data, steps)
    ensures sup.services[..] == old(sup.services[..])[i := sup.services[i]]
    ensures SameButLog(old(sup.services[i]), sup.services[i], c)
    ensures sup.kernel.refusals == old(sup.kernel.refusals) + Refused(steps)
  {
    hide Refused, Fails, SameButLog, RotatesAndAppends, Supervisor.Did;
    var s := sup.services[i];
    if s.streams.At(c).logFd < 0 {
      ghost var e := Reopen(sup, i, c, false, w, h, es);
      steps := [e];
      if sup.services[i].streams.At(c).logFd >= 0 {
        ghost var t := sup.services[i];
        ghost var more := RotateAndAppend(sup, i, c, data, w, h, es + steps);
        SameButLogMore(s, t, sup.services[i], c);
        Together(steps, more);
        assert es + steps + more == es + (steps + more);
        assert (steps + more)[1..] == more;
        steps := steps + more;
      }
    } else {
      steps := RotateAndAppend(sup, i, c, data, w, h, es);
    }
  }

  /** The log of a slot gains what the steps on its stream have written. */
  lemma StreamGains(sup: Supervisor, v: World, h: seq<Event>, f: Files, i: nat, c: Channel, steps: seq<Event>)
    requires sup.Did(v, h, steps) && i < |v.svcs| && v.svcs[i].active && OnStream(steps, i, c)
    requires LegalRun(sup.origin, h) && Run(sup.origin, h) == v && Logged(sup.root, sup.origin, sup.found, h, f)
    ensures var p := LogPath(v.svcs[i].dir, c);
            Content(sup.kernel.files, p) == Content(f, p) + Carried(steps, Written)
  {
    hide Run, LegalRun, Logged, Supervisor.Did, LogPath, Content, StreamLogged, Below, LogBelow, Plain, Inv;
    hide Total, Carried;
    sup.GainedSince(v, h, steps, f);
    LoggedFacts(sup.root, sup.origin, sup.found, h, f);
    assert SlotLogged(sup.root, f, v.svcs[i]);
    LogOfSlot(sup.root, v.svcs[i], c);
    StreamTotal(v, steps, i, c, LogPath(v.svcs[i].dir, c), Written);
  }

  /**
   `write_log`. What reaches the file is a prefix of the data, all of it unless a step fails. Rotation removes
   nothing, so the file then exceeds the limit for logs exactly when its old content and the data together do.
   */
  method WriteLog(sup: Supervisor, i: nat, c: Channel, data: Text, ghost w: World, ghost h: seq<Event>,
                  ghost es: seq<Event>)
    returns (ghost steps: seq<Event>)
    requires sup.Did(w, h, es) && i < sup.services.Length && sup.services[i].active
    requires data != []
    modifies sup.services, sup.kernel`fds, sup.kernel`files
    modifies sup.kernel`refusals, sup.kernel`answers, sup`history
    ensures sup.Did(w, h, es + steps) && Writes(old(sup.services[i]).streams.At(c), i, c, data, steps)
    ensures sup.services[..] == old(sup.services[..])[i := sup.services[i]]
    ensures SameButLog(old(sup.services[i]), sup.services[i], c)
    ensures sup.kernel.refusals == old(sup.kernel.refusals) + Refused(steps)
    ensures var p := LogPath(old(sup.services[i]).dir, c);
            && Content(sup.kernel.files, p) == old(Content(sup.kernel.files, p)) + Carried(steps, Written)
            && Carried(steps, Written) <= data && (Lossy(steps) <==> Carried(steps, Written) != data)
            && (!Lossy(steps) ==> (|Content(sup.kernel.files, p)| > 1_048_576
                                   <==> |old(Content(sup.kernel.files, p))| + |data| > 1_048_576))
  {
    hide Refused, Fails, Lossy, SameButLog, Writes, Carried, OnStream, LogPath, Content, Logged, Run;
    hide LegalRun, Inv, Supervisor.Did;
    ghost var v, f := sup.Snapshot(), sup.kernel.files;
    sup.TracedNow(w, h, es);
    steps := StoreChunk(sup, i, c, data, w, h, es);
    WritesCarry(v.svcs[i].streams.At(c), i, c, data, steps);
    sup.DidSince(w, h, es, v, steps);
    StreamGains(sup, v, h + es, f, i, c, steps);
  }

  // ---------------------------------------------------------------- reading

  /** The read end is closed after the end of the stream or an error. */
  method EndStream(sup: Supervisor, i: nat, c: Channel, ghost w: World, ghost h: seq<Event>, ghost es: seq<Event>)
    requires sup.Did(w, h, es) && i < sup.services.Length && sup.services[i].active
    requires sup.services[i].streams.At(c).readFd >= 0
    modifies sup.services, sup.kernel`fds, sup`history
    ensures sup.Did(w, h, es + [Do(i, Io(c, CloseRead))])
    ensures sup.services[..] == old(sup.services[..])[i := sup.services[i]]
    ensures SameButStream(old(sup.services[i]), sup.services[i], c) && sup.services[i].streams.At(c).readFd == -1
  {
    hide Run, LegalRun, Logged, Inv, Step, Legal, Supervisor.Did;
    sup.CloseReadEnd(i, c, w, h, es);
  }

  /** What becomes of a chunk that has been read. */
  method HandleChunk(sup: Supervisor, i: nat, c: Channel, r: Chunk, ghost w: World, ghost h: seq<Event>,
                     ghost es: seq<Event>)
    returns (ghost more: seq<Event>)
    requires sup.Did(w, h, es) && i < sup.services.Length && sup.services[i].active
    requires sup.services[i].streams.At(c).readFd >= 0 && (r.Data? ==> r.b != [])
    modifies sup.services, sup.kernel`fds, sup.kernel`files
    modifies sup.kernel`refusals, sup.kernel`answers, sup`history
    ensures sup.Did(w, h, es + more) && ChunkSteps(old(sup.services[i]), i, c, [Do(i, Io(c, Took(r)))] + more)
    ensures sup.services[..] == old(sup.services[..])[i := sup.services[i]]
    ensures SameButStream(old(sup.services[i]), sup.services[i], c)
    ensures sup.services[i].streams.At(c).readFd == if Ends(r) then -1 else old(sup.services[i].streams.At(c).readFd)
    ensures sup.kernel.refusals == old(sup.kernel.refusals) + Refused(more)
  {
    hide Supervisor.Did, Refused, Fails, SameButStream, SameButLog, Writes;
    ghost var s := sup.services[i];
    SameButStreamSelf(s, c);
    NothingYet();
    more := [];
    assert es + [] == es;
    if r.Data? {
      if !sup.services[i].hasLog {
        more := WriteLog(sup, i, c, r.b, w, h, es);
        LogIsStream(s, sup.services[i], c);
      }
    } else if !r.Again? {
      EndStream(sup, i, c, w, h, es);
      more := [Do(i, Io(c, CloseRead))];
      RefusedOne(more[0]);
      NotFailure(i, c, CloseRead);
    }
    assert ([Do(i, Io(c, Took(r)))] + more)[1..] == more;
  }

  lemma NotFailure(i: nat, c: Channel, op: StreamOp)
    requires op.Took? || op.CloseRead?
    ensures !Fails(Do(i, Io(c, op)))
  {
  }

  lemma {:induction false} OnlyOneRead(es: seq<Event>)
    requires forall k :: 0 <= k < |es| ==> !(es[k].Do? && es[k].a.Io? && es[k].a.op.Took?)
    ensures Taken(es) == []
  {
    if es != [] {
      OnlyOneRead(es[..|es| - 1]);
    }
  }

  /** One turn makes one read. */
  lemma ChunkTaken(s: Service, i: nat, c: Channel, r: Chunk, more: seq<Event>)
    requires ChunkSteps(s, i, c, [Do(i, Io(c, Took(r)))] + more)
    ensures var es := [Do(i, Io(c, Took(r)))] + more;
            Taken(es) == [r] && Refused(es) == Refused(more) && (FullRead(es) <==> Full(r))
  {
    hide Refused, Fails;
    var e := Do(i, Io(c, Took(r)));
    assert ([e] + more)[1..] == more;
    OnlyOneRead(more);
    hide Taken, ChunkSteps;
    RefusedOne(e);
    NotFailure(i, c, Took(r));
    Together([e], more);
  }

  /** One turn of the loop of `drain_stream`. */
  method DrainChunk(sup: Supervisor, i: nat, c: Channel, ghost w: World, ghost h: seq<Event>, ghost es: seq<Event>)
    returns (full: bool, ghost steps: seq<Event>)
    requires sup.Did(w, h, es) && i < sup.services.Length && sup.services[i].active
    requires sup.services[i].streams.At(c).readFd >= 0
    modifies sup.services, sup.kernel`fds, sup.kernel`files
    modifies sup.kernel`refusals, sup.kernel`answers, sup`history
    modifies sup.kernel`received, sup.kernel`unread
    ensures sup.Did(w, h, es + steps) && ChunkSteps(old(sup.services[i]), i, c, steps)
    ensures sup.services[..] == old(sup.services[..])[i := sup.services[i]]
    ensures SameButStream(old(sup.services[i]), sup.services[i], c)
    ensures sup.kernel.received == old(sup.kernel.received) + Taken(steps)
    ensures sup.kernel.refusals == old(sup.kernel.refusals) + Refused(steps)
    ensures full == FullRead(steps) && sup.kernel.unread <= old(sup.kernel.unread) - Flag(full)
    ensures full ==> sup.services[i].streams.At(c).readFd == old(sup.services[i].streams.At(c).readFd)
  {
    hide Supervisor.Did, Refused, SameButStream, ChunkSteps, Taken, FullRead, Run, LegalRun, Logged, Inv, Writes;
    sup.StreamHeld(w, h, es, i, End(c, false));
    sup.TracedNow(w, h, es);
    var r := sup.kernel.Read(sup.services[i].streams.At(c).readFd);
    ghost var s, read := sup.services[i], Do(i, Io(c, Took(r)));
    sup.NoteRead(i, c, r, w, h, es);
    ghost var more := HandleChunk(sup, i, c, r, w, h, es + [read]);
    steps := [read] + more;
    assert es + [read] + more == es + steps;
    ChunkTaken(s, i, c, r, more);
    full := r.Data? && |r.b| == IO_BUF;
  }

  /** The state of the loop of `drain_stream`: the slot held `s` before it and holds `t` now. */
  ghost predicate Progress(s: Service, t: Service, c: Channel, chunks: seq<seq<Event>>, full: bool) {
    && SameButStream(s, t, c)
    && (forall k :: 0 <= k < |chunks| - 1 ==> FullRead(chunks[k]))
    && (full <==> chunks == [] || FullRead(chunks[|chunks| - 1]))
    && (s.streams.At(c).readFd < 0 ==> chunks == [])
    && (chunks == [] || full ==> t.streams.At(c).readFd == s.streams.At(c).readFd)
  }

  lemma ProgressNone(s: Service, c: Channel)
    ensures Progress(s, s, c, [], true)
  {
  }

  lemma ProgressMore(s: Service, t: Service, u: Service, c: Channel, chunks: seq<seq<Event>>, chunk: seq<Event>)
    requires Progress(s, t, c, chunks, true) && t.streams.At(c).readFd >= 0 && SameButStream(t, u, c)
    requires FullRead(chunk) ==> u.streams.At(c).readFd == t.streams.At(c).readFd
    ensures Progress(s, u, c, chunks + [chunk], FullRead(chunk)) && StillServing(t, u)
  {
    SameButStreamMore(s, t, u, c);
    SameButStreamMore(t, t, u, c) by { SameButStreamSelf(t, c); }
    hide SameButStream, FullRead;
    var more := chunks + [chunk];
    forall k | 0 <= k < |more| - 1 ensures FullRead(more[k]) {
      if k == |chunks| - 1 {
        assert more[k] == chunks[|chunks| - 1];
      }
    }
  }

  lemma ProgressDone(s: Service, t: Service, c: Channel, chunks: seq<seq<Event>>, full: bool)
    requires Progress(s, t, c, chunks, full) && (full ==> t.streams.At(c).readFd < 0)
    ensures SameButStream(s, t, c) && Through(s.streams.At(c), chunks)
  {
    hide SameButStream, FullRead;
  }

  /** `drain_stream`: reads until one does not fill the buffer. */
  method DrainStream(sup: Supervisor, i: nat, c: Channel, ghost w: World, ghost h: seq<Event>, ghost es: seq<Event>)
    returns (ghost steps: seq<Event>)
    requires sup.Did(w, h, es) && i < sup.services.Length && sup.services[i].active
    modifies sup.services, sup.kernel`fds, sup.kernel`files
    modifies sup.kernel`refusals, sup.kernel`answers, sup`history
    modifies sup.kernel`received, sup.kernel`unread
    ensures sup.Did(w, h, es + steps) && Drained(old(sup.Snapshot()), i, c, steps)
    ensures sup.services[..] == old(sup.services[..])[i := sup.services[i]]
    ensures SameButStream(old(sup.services[i]), sup.services[i], c)
    ensures sup.kernel.received == old(sup.kernel.received) + Taken(steps)
    ensures sup.kernel.refusals == old(sup.kernel.refusals) + Refused(steps)
  {
    hide Supervisor.Did, LegalRun, Run, Taken, Refused, FullRead, SameButStream, ChunkSteps, Chunks, Through;
    hide Progress;
    hide Joined;
    ghost var v, s := sup.Snapshot(), sup.services[i];
    sup.DidNothing(w, h, es);
    ghost var chunks: seq<seq<Event>> := [];
    NoChunks(v, i, c);
    NothingYet();
    ProgressNone(s, c);
    var full := true;
    while full
      invariant sup.Did(v, h + es, Joined(chunks)) && Chunks(v, i, c, chunks)
      invariant Progress(s, sup.services[i], c, chunks, full)
      invariant sup.services[..] == old(sup.services[..])[i := sup.services[i]] && sup.services[i].active
      invariant sup.kernel.received == old(sup.kernel.received) + Taken(Joined(chunks))
      invariant sup.kernel.refusals == old(sup.kernel.refusals) + Refused(Joined(chunks))
      decreases sup.kernel.unread, full
    {
      if sup.services[i].streams.At(c).readFd < 0 {
        break;
      }
      ghost var t := sup.services[i];
      sup.DidNothing(v, h + es, Joined(chunks));
      ghost var chunk;
      full, chunk := DrainChunk(sup, i, c, v, h + es, Joined(chunks));
      ProgressMore(s, t, sup.services[i], c, chunks, chunk);
      ChunksMore(v, i, c, chunks, chunk);
      Together(Joined(chunks), chunk);
      chunks := chunks + [chunk];
    }
    ProgressDone(s, sup.services[i], c, chunks, full);
    steps := Joined(chunks);
    sup.DidMore(w, h, es, v, steps);
  }

  lemma NoChunks(v: World, i: nat, c: Channel)
    requires i < |v.svcs|
    ensures Chunks(v, i, c, []) && Joined([]) == []
  {
  }

  // ---------------------------------------------------------------- all streams

  predicate OnlyIo(es: seq<Event>) {
    forall k :: 0 <= k < |es| ==> es[k].Do? && es[k].a.Io?
  }

  /** The same table but for the streams. */
  predicate SameButStreams(a: seq<Service>, b: seq<Service>) {
    |a| == |b| && forall j :: 0 <= j < |a| ==> b[j] == a[j].(streams := b[j].streams)
  }

  lemma SameButStreamsMore(a: seq<Service>, b: seq<Service>, i: nat, s: Service, c: Channel)
    requires SameButStreams(a, b) && i < |b| && SameButStream(b[i], s, c)
    ensures SameButStreams(a, b[i := s]) && StillServing(b[i], s)
  {
  }

  lemma OnlyIoMore(es: seq<Event>, more: seq<Event>, i: nat, c: Channel)
    requires OnlyIo(es) && OnStream(more, i, c)
    ensures OnlyIo(es + more)
  {
  }

  lemma UnreadDrained(u: World, i: nat, c: Channel)
    requires i < |u.svcs| && u.svcs[i].streams.At(c).readFd < 0
    ensures Drained(u, i, c, [])
  {
    NoChunks(u, i, c);
    assert Through(u.svcs[i].streams.At(c), []);
  }

  /** Since the world `v`, what the parts say has been done to streams, and nothing else. */
  ghost predicate StreamsDone(v: World, t: seq<Service>, parts: seq<seq<Event>>) {
    && LegalRun(v, Joined(parts)) && AllDrained(v, parts)
    && OnlyIo(Joined(parts)) && SameButStreams(v.svcs, t) && Run(v, Joined(parts)).svcs == t
  }

  lemma StreamsNone(v: World)
    ensures StreamsDone(v, v.svcs, []) && Joined([]) == []
  {
  }

  lemma StreamsMore(v: World, t: seq<Service>, parts: seq<seq<Event>>, i: nat, c: Channel, part: seq<Event>, s: Service)
    requires Inv(v) && StreamsDone(v, t, parts) && i < |t| && |parts| == 2 * i + if c == Out then 0 else 1
    requires t[i].active && Drained(Run(v, Joined(parts)), i, c, part) && SameButStream(t[i], s, c)
    requires LegalRun(Run(v, Joined(parts)), part) && Run(Run(v, Joined(parts)), part).svcs == t[i := s]
    ensures StreamsDone(v, t[i := s], parts + [part]) && Joined(parts + [part]) == Joined(parts) + part
    ensures s.active
  {
    hide LegalRun, Run, Drained, AllDrained, SameButStreams, SameButStream, Joined, OnlyIo, Inv;
    AllDrainedMore(v, parts, part);
    RunKeeps(v, Joined(parts));
    DrainedBalanced(Run(v, Joined(parts)), i, c, part);
    OnlyIoMore(Joined(parts), part, i, c);
    SameButStreamsMore(v.svcs, t, i, s, c);
    RunConcat(v, Joined(parts), part);
  }

  lemma StreamsSkip(v: World, t: seq<Service>, parts: seq<seq<Event>>)
    requires StreamsDone(v, t, parts) && |parts| / 2 < |t| && !t[|parts| / 2].active
    ensures StreamsDone(v, t, parts + [[]]) && Joined(parts + [[]]) == Joined(parts)
  {
    hide LegalRun, Run, Drained, AllDrained, SameButStreams, OnlyIo, Joined;
    AllDrainedMore(v, parts, []);
    assert Joined(parts) + [] == Joined(parts);
  }

  /** One stream of slot `i`, whose turn it is. */
  method DrainNext(sup: Supervisor, i: nat, c: Channel, ghost v: World, ghost h: seq<Event>,
                   ghost parts: seq<seq<Event>>)
    returns (ghost part: seq<Event>)
    requires sup.Did(v, h, Joined(parts)) && StreamsDone(v, sup.services[..], parts) && Inv(v)
    requires i < sup.services.Length && sup.services[i].active && |parts| == 2 * i + if c == Out then 0 else 1
    modifies sup.services, sup.kernel`fds, sup.kernel`files
    modifies sup.kernel`refusals, sup.kernel`answers, sup`history
    modifies sup.kernel`received, sup.kernel`unread
    ensures sup.Did(v, h, Joined(parts + [part])) && StreamsDone(v, sup.services[..], parts + [part])
    ensures sup.services[i].active
    ensures sup.kernel.received == old(sup.kernel.received) + Taken(part)
    ensures sup.kernel.refusals == old(sup.kernel.refusals) + Refused(part)
    ensures Joined(parts + [part]) == Joined(parts) + part
  {
    hide Supervisor.Did, StreamsDone, LegalRun, Run, Taken, Refused, SameButStream, Drained, Joined, Inv;
    ghost var u, t := sup.Snapshot(), sup.services[..];
    sup.DidNothing(v, h, Joined(parts));
    part := [];
    NothingYet();
    SameButStreamSelf(t[i], c);
    if sup.services[i].streams.At(c).readFd >= 0 {
      part := DrainStream(sup, i, c, v, h, Joined(parts));
      sup.DidSince(v, h, Joined(parts), u, part);
      sup.DidNothing(u, h + Joined(parts), part);
    } else {
      UnreadDrained(u, i, c);
      EmptyRun(u);
      assert Joined(parts) + [] == Joined(parts);
    }
    StreamsMore(v, t, parts, i, c, part, sup.services[i]);
  }

  /**
   `drain_all_once`: each stream of each active slot is drained. Each log file gains exactly what is written to
   it, which is what is read for it unless the kernel has refused to open or to write a log.
   */
  method DrainAllOnce(sup: Supervisor, ghost w: World, ghost h: seq<Event>, ghost es: seq<Event>)
    returns (ghost parts: seq<seq<Event>>)
    requires sup.Did(w, h, es)
    modifies sup.services, sup.kernel`fds, sup.kernel`files
    modifies sup.kernel`refusals, sup.kernel`answers, sup`history
    modifies sup.kernel`received, sup.kernel`unread
    ensures sup.Did(w, h, es + Joined(parts)) && OnlyIo(Joined(parts))
    ensures sup.kernel.answers == old(sup.kernel.answers) + Asked(Joined(parts))
    ensures SameButStreams(old(sup.services[..]), sup.services[..])
    ensures |parts| == 2 * sup.services.Length && AllDrained(old(sup.Snapshot()), parts)
    ensures sup.kernel.received == old(sup.kernel.received) + Taken(Joined(parts))
    ensures sup.kernel.refusals == old(sup.kernel.refusals) + Refused(Joined(parts))
    ensures Conserves(sup.root, old(sup.Snapshot()), old(sup.kernel.files), Joined(parts), sup.kernel.files)
  {
    hide Supervisor.Did, StreamsDone, LegalRun, Run, Taken, Refused, Joined, Logged, Inv, Balanced, Gains;
    ghost var v, f, was := sup.Snapshot(), sup.kernel.files, sup.kernel.answers;
    sup.TracedNow(w, h, es);
    sup.DidNothing(w, h, es);
    parts := [];
    StreamsNone(v);
    NothingYet();
    for i := 0 to sup.services.Length
      invariant |parts| == 2 * i && sup.Did(v, h + es, Joined(parts)) && StreamsDone(v, sup.services[..], parts)
      invariant sup.kernel.received == old(sup.kernel.received) + Taken(Joined(parts))
      invariant sup.kernel.refusals == old(sup.kernel.refusals) + Refused(Joined(parts))
    {
      if sup.services[i].active {
        ghost var part := DrainNext(sup, i, Out, v, h + es, parts);
        Together(Joined(parts), part);
        parts := parts + [part];
        part := DrainNext(sup, i, Err, v, h + es, parts);
        Together(Joined(parts), part);
        parts := parts + [part];
      } else {
        StreamsSkip(v, sup.services[..], parts);
        parts := parts + [[]];
        StreamsSkip(v, sup.services[..], parts);
        parts := parts + [[]];
      }
    }
    StreamsFacts(v, sup.services[..], parts);
    AllDrainedBalanced(v, parts);
    sup.GainedSince(v, h + es, Joined(parts), f);
    sup.DidMore(w, h, es, v, Joined(parts));
    sup.AskedSince(w, h, es, Joined(parts), was);
  }

  lemma StreamsFacts(v: World, t: seq<Service>, parts: seq<seq<Event>>)
    requires StreamsDone(v, t, parts)
    ensures LegalRun(v, Joined(parts)) && AllDrained(v, parts)
    ensures OnlyIo(Joined(parts)) && SameButStreams(v.svcs, t)
  {
  }
}
