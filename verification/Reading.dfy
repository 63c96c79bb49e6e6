/** What draining reads, and when it rotates, told from the steps it takes. */
module Reading {
  import opened Types
  import opened Machine
  import opened Ledger
  import opened Logs
  import opened Drains
  import opened Reaping
  import Shutdown

  /** The step opens, writes or closes the log of its stream. */
  predicate OnLog(e: Event, i: nat, c: Channel) {
    OnSlot(e, i, c) && (e.a.op.OpenLog? || e.a.op.Wrote? || e.a.op.CloseLog?)
  }

  predicate AllOnLog(es: seq<Event>, i: nat, c: Channel) {
    forall k :: 0 <= k < |es| ==> OnLog(es[k], i, c)
  }

  lemma WritesOnLog(st: Stream, i: nat, c: Channel, data: Text, es: seq<Event>)
    requires Writes(st, i, c, data, es)
    ensures AllOnLog(es, i, c)
  {
    if st.logFd < 0 {
      if es[0].a.op.fd >= 0 {
        RotatesOnLog(StreamAfter(st, es[0].a.op), i, c, data, es[1..]);
        assert forall k :: 1 <= k < |es| ==> es[k] == es[1..][k - 1];
      }
    } else {
      RotatesOnLog(st, i, c, data, es);
    }
  }

  lemma RotatesOnLog(st: Stream, i: nat, c: Channel, data: Text, es: seq<Event>)
    requires RotatesAndAppends(st, i, c, data, es)
    ensures AllOnLog(es, i, c)
  {
    if st.logLen + |data| > 1_048_576 && es[0].a.op.fd >= 0 {
      assert forall k :: 1 <= k < |es| ==> es[k] == es[1..][k - 1];
    }
  }

  predicate Rotates(es: seq<Event>) {
    exists k :: 0 <= k < |es| && es[k].Do? && es[k].a.Io? && es[k].a.op.OpenLog? && es[k].a.op.rotated
  }

  lemma RotatesSingle(e: Event)
    ensures Rotates([e]) <==> e.Do? && e.a.Io? && e.a.op.OpenLog? && e.a.op.rotated
  {
    assert [e][0] == e;
  }

  lemma RotatesCons(es: seq<Event>)
    requires es != []
    ensures Rotates(es) <==> Rotates([es[0]]) || Rotates(es[1..])
  {
    RotatesSingle(es[0]);
    if k :| 0 <= k < |es[1..]| && es[1..][k].Do? && es[1..][k].a.Io? && es[1..][k].a.op.OpenLog?
            && es[1..][k].a.op.rotated {
      assert es[k + 1] == es[1..][k];
    }
    if k :| 0 <= k < |es| && es[k].Do? && es[k].a.Io? && es[k].a.op.OpenLog? && es[k].a.op.rotated {
      if k > 0 {
        assert es[1..][k - 1] == es[k];
      }
    }
  }

  lemma AppendsRotatesNot(i: nat, c: Channel, data: Text, es: seq<Event>)
    requires Appends(i, c, data, es)
    ensures !Rotates(es)
  {
  }

  lemma OpenRotates(st: Stream, i: nat, c: Channel, data: Text, es: seq<Event>)
    requires RotatesAndAppends(st, i, c, data, es)
    ensures Rotates(es) <==> st.logLen + |data| > 1_048_576
  {
    hide Appends, Rotates;
    if st.logLen + |data| > 1_048_576 {
      RotatesSingle(es[0]);
      RotatesCons(es);
    } else {
      AppendsRotatesNot(i, c, data, es);
    }
  }

  /**
   A log that is open is rotated exactly when it would exceed 1 MiB; one that is not is opened first, and then
   rotated exactly when what was found and the data together do.
   */
  lemma RotatesIff(st: Stream, i: nat, c: Channel, data: Text, es: seq<Event>)
    requires Writes(st, i, c, data, es)
    ensures es != []
    ensures st.logFd >= 0 ==> (Rotates(es) <==> st.logLen + |data| > 1_048_576)
    ensures st.logFd < 0 ==>
              && OnSlot(es[0], i, c) && es[0].a.op.OpenLog? && !es[0].a.op.rotated
              && if es[0].a.op.fd < 0 then es == [es[0]] else (Rotates(es) <==> es[0].a.op.len + |data| > 1_048_576)
  {
    hide RotatesAndAppends, Rotates;
    if st.logFd < 0 {
      RotatesSingle(es[0]);
      RotatesCons(es);
      if es[0].a.op.fd >= 0 {
        OpenRotates(StreamAfter(st, es[0].a.op), i, c, data, es[1..]);
      }
    } else {
      OpenRotates(st, i, c, data, es);
      assert es != [] by { NotNothing(st, i, c, data, es); }
    }
  }

  lemma NotNothing(st: Stream, i: nat, c: Channel, data: Text, es: seq<Event>)
    requires RotatesAndAppends(st, i, c, data, es)
    ensures es != []
  {
  }

  // ---------------------------------------------------------------- reads

  lemma StreamRead(w: World, e: Event, i: nat, c: Channel)
    requires Legal(w, e) && OnSlot(e, i, c)
    ensures i < |w.svcs|
    ensures Step(w, e).svcs[i].streams.At(c).readFd
         == if e.a.op.CloseRead? then -1 else w.svcs[i].streams.At(c).readFd
  {
    hide Handles, AllowedIo, ActionSends;
  }

  lemma {:induction false} LogStepsRead(w: World, es: seq<Event>, i: nat, c: Channel)
    requires LegalRun(w, es) && AllOnLog(es, i, c) && i < |w.svcs|
    ensures Taken(es) == [] && Run(w, es).svcs[i].streams.At(c).readFd == w.svcs[i].streams.At(c).readFd
    decreases |es|
  {
    hide Legal, Step;
    if es != [] {
      LogStepsRead(w, es[..|es| - 1], i, c);
      StreamRead(Run(w, es[..|es| - 1]), es[|es| - 1], i, c);
    }
  }

  lemma Tail(w: World, es: seq<Event>)
    requires LegalRun(w, es) && es != []
    ensures Legal(w, es[0]) && LegalRun(Step(w, es[0]), es[1..])
    ensures Run(w, es) == Run(Step(w, es[0]), es[1..]) && Taken(es) == TakenBy(es[0]) + Taken(es[1..])
  {
    hide Legal, Step, TakenBy;
    assert es == [es[0]] + es[1..];
    RunSplit(w, [es[0]], es[1..]);
    assert [es[0]][..0] == [];
    TakenConcat([es[0]], es[1..]);
    assert Taken([es[0]]) == [] + TakenBy(es[0]) == TakenBy(es[0]);
  }

  /** One turn of the loop reads once; the end is closed after the end of the stream or an error, and only then. */
  lemma ChunkReads(w: World, i: nat, c: Channel, es: seq<Event>)
    requires i < |w.svcs| && ChunkSteps(w.svcs[i], i, c, es) && LegalRun(w, es)
    ensures Taken(es) == [es[0].a.op.r]
    ensures Run(w, es).svcs[i].streams.At(c).readFd
         == if es[0].a.op.r.Eof? || es[0].a.op.r.Broken? then -1 else w.svcs[i].streams.At(c).readFd
  {
    Tail(w, es);
    StreamRead(w, es[0], i, c);
    var u, rest, r := Step(w, es[0]), es[1..], es[0].a.op.r;
    hide Legal, Step, LegalRun, Run, Taken, Writes;
    assert TakenBy(es[0]) == [r];
    if r.Eof? || r.Broken? {
      ClosingRun(u, rest, i, c);
    } else if r.Data? && !w.svcs[i].hasLog {
      WritesOnLog(w.svcs[i].streams.At(c), i, c, r.b, rest);
      LogStepsRead(u, rest, i, c);
    } else {
      LogStepsRead(u, rest, i, c);
    }
    assert [r] + [] == [r];
  }

  lemma ClosingRun(u: World, es: seq<Event>, i: nat, c: Channel)
    requires LegalRun(u, es) && es == [Do(i, Io(c, CloseRead))] && i < |u.svcs|
    ensures Taken(es) == [] && Run(u, es).svcs[i].streams.At(c).readFd == -1
  {
    Tail(u, es);
    StreamRead(u, es[0], i, c);
    hide Legal, Step;
    assert es[1..] == [];
    assert TakenBy(es[0]) + Taken([]) == [];
  }

  /** All but the last of the reads fill the buffer. */
  lemma {:induction false} ChunksRead(u: World, i: nat, c: Channel, chunks: seq<seq<Event>>)
    requires Chunks(u, i, c, chunks) && LegalRun(u, Joined(chunks))
    requires forall k :: 0 <= k < |chunks| ==> FullRead(chunks[k])
    ensures forall r :: r in Taken(Joined(chunks)) ==> r.Data? && |r.b| == 4096
    ensures Run(u, Joined(chunks)).svcs[i].streams.At(c).readFd == u.svcs[i].streams.At(c).readFd
    decreases |chunks|
  {
    hide Legal, Step, LegalRun, Run, ChunkSteps, Taken;
    if chunks == [] {
      EmptyRun(u);
      assert Taken([]) == [] by { NothingTaken(); }
    } else {
      var n := |chunks| - 1;
      ChunksFewer(u, i, c, chunks);
      RunSplit(u, Joined(chunks[..n]), chunks[n]);
      ChunksRead(u, i, c, chunks[..n]);
      ChunkReads(Run(u, Joined(chunks[..n])), i, c, chunks[n]);
      TakenConcat(Joined(chunks[..n]), chunks[n]);
      assert FullRead(chunks[n]);
    }
  }

  lemma NothingTaken()
    ensures Taken([]) == []
  {
  }

  /**
   Draining an open pipe reads at least once: full buffers, then a read that does not fill the buffer. The end is
   closed exactly when that last read has met the end of the stream or an error.
   */
  lemma DrainReads(u: World, i: nat, c: Channel, es: seq<Event>)
    requires i < |u.svcs| && Drained(u, i, c, es) && LegalRun(u, es) && u.svcs[i].streams.At(c).readFd >= 0
    ensures var rs := Taken(es);
            && rs != []
            && (forall k :: 0 <= k < |rs| - 1 ==> rs[k].Data? && |rs[k].b| == 4096)
            && var last := rs[|rs| - 1];
               && !(last.Data? && |last.b| == 4096)
               && Run(u, es).svcs[i].streams.At(c).readFd
                  == if last.Eof? || last.Broken? then -1 else u.svcs[i].streams.At(c).readFd
  {
    hide Legal, Step, LegalRun, Run, ChunkSteps, Taken;
    var chunks :| es == Joined(chunks) && Chunks(u, i, c, chunks) && Through(u.svcs[i].streams.At(c), chunks);
    var n := |chunks| - 1;
    ChunksFewer(u, i, c, chunks);
    RunSplit(u, Joined(chunks[..n]), chunks[n]);
    ChunksRead(u, i, c, chunks[..n]);
    ChunkReads(Run(u, Joined(chunks[..n])), i, c, chunks[n]);
    TakenConcat(Joined(chunks[..n]), chunks[n]);
    assert !FullRead(chunks[n]);
    ChunkBeginsWithRead(Run(u, Joined(chunks[..n])).svcs[i], i, c, chunks[n]);
  }

  predicate ChunkBegins(es: seq<Event>, i: nat, c: Channel) {
    es != [] && Reads(es[0], i, c)
  }

  lemma ChunkBeginsWithRead(s: Service, i: nat, c: Channel, es: seq<Event>)
    requires ChunkSteps(s, i, c, es)
    ensures ChunkBegins(es, i, c)
  {
  }

  // ---------------------------------------------------------------- nothing open is passed over

  /** Steps that leave the pipe of channel `c` of slot `i` alone. */
  predicate Elsewhere(e: Event, i: nat, c: Channel) {
    e.Reap? || e.Idle? || (e.Do? && e.a.Io? && (e.i != i || e.a.c != c))
  }

  predicate AllElsewhere(es: seq<Event>, i: nat, c: Channel) {
    forall k :: 0 <= k < |es| ==> Elsewhere(es[k], i, c)
  }

  predicate SamePipe(s: Service, t: Service, c: Channel) {
    t.active == s.active && t.streams.At(c).readFd == s.streams.At(c).readFd
  }

  lemma ExitKeepsPipe(s: Service, status: int, t: int, c: Channel)
    ensures SamePipe(s, AfterExit(s, status, t), c) && SamePipe(s, AfterLoggerExit(s), c)
  {
  }

  lemma IoKeepsPipe(s: Service, d: Channel, op: StreamOp, c: Channel)
    requires d != c
    ensures SamePipe(s, IoAfter(s, d, op), c)
  {
  }

  lemma PipeStep(w: World, e: Event, i: nat, c: Channel)
    requires Legal(w, e) && Elsewhere(e, i, c) && i < |w.svcs|
    ensures SamePipe(w.svcs[i], Step(w, e).svcs[i], c)
  {
    hide Handles, Sends, ChildrenAfter, ClockAfter, AfterExit, AfterLoggerExit, IoAfter, AllowedIo, SamePipe;
    assert SamePipe(w.svcs[i], w.svcs[i], c) by { SamePipeSelf(w.svcs[i], c); }
    if e.Reap? && Target(w, e).Some? && Target(w, e).value.0 == i {
      ExitKeepsPipe(w.svcs[i], e.status, Seconds(e.at), c);
    } else if e.Do? && e.i == i {
      IoKeepsPipe(w.svcs[i], e.a.c, e.a.op, c);
    }
  }

  lemma SamePipeSelf(s: Service, c: Channel)
    ensures SamePipe(s, s, c)
  {
  }

  lemma {:induction false} PipeRun(w: World, es: seq<Event>, i: nat, c: Channel)
    requires LegalRun(w, es) && AllElsewhere(es, i, c) && i < |w.svcs|
    ensures SamePipe(w.svcs[i], Run(w, es).svcs[i], c)
    decreases |es|
  {
    hide Legal, Step;
    if es != [] {
      PipeRun(w, es[..|es| - 1], i, c);
      PipeStep(Run(w, es[..|es| - 1]), es[|es| - 1], i, c);
    }
  }

  lemma OnStreamElsewhere(es: seq<Event>, j: nat, d: Channel, i: nat, c: Channel)
    requires OnStream(es, j, d) && (j != i || d != c)
    ensures AllElsewhere(es, i, c)
  {
  }

  lemma DrainedOnStream(u: World, i: nat, c: Channel, es: seq<Event>)
    requires Inv(u) && Drained(u, i, c, es) && LegalRun(u, es)
    ensures OnStream(es, i, c)
  {
    DrainedBalanced(u, i, c, es);
  }

  /** The streams before that of channel `c` of slot `i` do not touch it. */
  lemma {:induction false} EarlierElsewhere(v: World, parts: seq<seq<Event>>, i: nat, c: Channel)
    requires Inv(v) && AllDrained(v, parts) && LegalRun(v, Joined(parts))
    requires |parts| <= 2 * i + (if c == Out then 0 else 1)
    ensures AllElsewhere(Joined(parts), i, c)
    decreases |parts|
  {
    hide Inv, Legal, Step, LegalRun, Run, Drained;
    if parts != [] {
      var n := |parts| - 1;
      AllDrainedFewer(v, parts);
      RunSplit(v, Joined(parts[..n]), parts[n]);
      RunKeeps(v, Joined(parts[..n]));
      EarlierElsewhere(v, parts[..n], i, c);
      var u := Run(v, Joined(parts[..n]));
      var j, d := n / 2, if n % 2 == 0 then Out else Err;
      if j < |u.svcs| && u.svcs[j].active {
        DrainedOnStream(u, j, d, parts[n]);
        OnStreamElsewhere(parts[n], j, d, i, c);
      }
    }
  }

  lemma {:induction false} JoinedUpTo(v: World, parts: seq<seq<Event>>, k: nat)
    requires LegalRun(v, Joined(parts)) && k < |parts|
    ensures LegalRun(v, Joined(parts[..k])) && LegalRun(Run(v, Joined(parts[..k])), parts[k])
    ensures forall e :: e in parts[k] ==> e in Joined(parts)
    decreases |parts|
  {
    hide Legal, Step, LegalRun, Run;
    var n := |parts| - 1;
    RunSplit(v, Joined(parts[..n]), parts[n]);
    assert parts[..|parts|] == parts;
    if k < n {
      JoinedUpTo(v, parts[..n], k);
      assert parts[..n][..k] == parts[..k];
    }
  }

  /** Draining everything reads each open pipe of each active slot at least once. */
  lemma AllDrainedRead(v: World, parts: seq<seq<Event>>, i: nat, c: Channel)
    requires Inv(v) && AllDrained(v, parts) && |parts| == 2 * |v.svcs| && LegalRun(v, Joined(parts))
    requires i < |v.svcs| && v.svcs[i].active && v.svcs[i].streams.At(c).readFd >= 0
    ensures exists e :: e in Joined(parts) && Reads(e, i, c)
  {
    hide Inv, Legal, Step, LegalRun, Run, Drained;
    var k := 2 * i + if c == Out then 0 else 1;
    JoinedUpTo(v, parts, k);
    EarlierDrained(v, parts, k);
    EarlierElsewhere(v, parts[..k], i, c);
    PipeRun(v, Joined(parts[..k]), i, c);
    var u := Run(v, Joined(parts[..k]));
    assert k / 2 == i && (k % 2 == 0 <==> c == Out);
    assert DrainedNext(u, k, parts[k]);
    DrainReads(u, i, c, parts[k]);
    RunKeeps(v, Joined(parts[..k]));
    DrainedOnStream(u, i, c, parts[k]);
    TakenRead(parts[k], i, c);
  }

  lemma EarlierDrained(v: World, parts: seq<seq<Event>>, k: nat)
    requires AllDrained(v, parts) && k <= |parts|
    ensures AllDrained(v, parts[..k])
  {
    hide LegalRun, Run, DrainedNext, Joined;
    forall j | 0 <= j < k
      ensures LegalRun(v, Joined(parts[..k][..j])) && DrainedNext(Run(v, Joined(parts[..k][..j])), j, parts[..k][j])
    {
      assert parts[..k][..j] == parts[..j];
    }
  }

  lemma {:induction false} TakenRead(es: seq<Event>, i: nat, c: Channel)
    requires OnStream(es, i, c) && Taken(es) != []
    ensures exists e :: e in es && Reads(e, i, c)
  {
    if es != [] {
      var e := es[|es| - 1];
      if TakenBy(e) != [] {
        assert e in es && Reads(e, i, c);
      } else {
        TakenRead(es[..|es| - 1], i, c);
      }
    }
  }

  lemma ReapsElsewhere(reaps: seq<Event>, idle: int, i: nat, c: Channel)
    requires AllReaps(reaps)
    ensures AllElsewhere(reaps + [Idle(idle)], i, c)
  {
  }

  /** Each turn of a waiting loop of the shutdown reads every open pipe of every active slot at least once. */
  lemma WaitTurnReads(u: World, es: seq<Event>, i: nat, c: Channel)
    requires Inv(u) && Shutdown.WaitTurn(u, es) && LegalRun(u, es)
    requires i < |u.svcs| && u.svcs[i].active && u.svcs[i].streams.At(c).readFd >= 0
    ensures exists e :: e in es && Reads(e, i, c)
  {
    hide Inv, Legal, Step, LegalRun, Run, AllDrained;
    var reaps, idle, streams, ticks :|
      && es == reaps + [Idle(idle)] + Joined(streams) + ticks
      && AllReaps(reaps) && LegalRun(u, reaps + [Idle(idle)])
      && |streams| == 2 * |u.svcs| && AllDrained(Run(u, reaps + [Idle(idle)]), streams)
      && Shutdown.OnlyTicks(ticks);
    var busy := reaps + [Idle(idle)];
    RunSplit(u, busy + Joined(streams), ticks);
    RunSplit(u, busy, Joined(streams));
    ReapsElsewhere(reaps, idle, i, c);
    PipeRun(u, busy, i, c);
    RunKeeps(u, busy);
    AllDrainedRead(Run(u, busy), streams, i, c);
    var e :| e in Joined(streams) && Reads(e, i, c);
    assert e in es;
  }
}
