/** Descriptor arithmetic of a launch: what the ledger must show on each of its outcomes. */
module Launching {
  import opened Types
  import opened Machine
  import opened Ledger

    function ReadEnds(s: Service): set<int> {
    {s.streams.out.readFd, s.streams.err.readFd}
  }

  function Ends(s: Service): set<int> {
    {s.streams.out.readFd, s.streams.out.logFd, s.streams.err.readFd, s.streams.err.logFd}
  }

  lemma HandlesOf(s: Service)
    requires s.active
    ensures Handles(s) == set f | f in Ends(s) && f >= 0
  {
    forall e ensures Fd(s, e) in Ends(s) {
    }
    forall f | f in Ends(s) && f >= 0
      ensures f in Handles(s)
    {
      if f == s.streams.out.readFd {
        assert Fd(s, End(Out, false)) == f;
      } else if f == s.streams.out.logFd {
        assert Fd(s, End(Out, true)) == f;
      } else if f == s.streams.err.readFd {
        assert Fd(s, End(Err, false)) == f;
      } else {
        assert Fd(s, End(Err, true)) == f;
      }
    }
  }

  lemma DistinctEndsOf(s: Service)
    requires s.active && DistinctEnds(s)
    ensures s.streams.out.logFd >= 0 ==>
              s.streams.out.logFd !in {s.streams.out.readFd, s.streams.err.readFd, s.streams.err.logFd}
    ensures s.streams.err.logFd >= 0 ==>
              s.streams.err.logFd !in {s.streams.out.readFd, s.streams.err.readFd, s.streams.out.logFd}
    ensures s.streams.out.readFd >= 0 ==> s.streams.out.readFd != s.streams.err.readFd
  {
    var a, b, c, d := End(Out, false), End(Out, true), End(Err, false), End(Err, true);
    assert Fd(s, a) == s.streams.out.readFd && Fd(s, b) == s.streams.out.logFd;
    assert Fd(s, c) == s.streams.err.readFd && Fd(s, d) == s.streams.err.logFd;
  }

  function NonNeg(fd: int): set<int> {
    if fd >= 0 then {fd} else {}
  }

  lemma OpenFds(w: World)
    requires Inv(w)
    ensures forall f :: f in w.fds ==> f >= 0
  {
    forall f | f in w.fds ensures f >= 0 {
      var i :| 0 <= i < |w.svcs| && f in Handles(w.svcs[i]);
    }
  }

  lemma SlotEnds(v: World, i: nat)
    requires Inv(v) && i < |v.svcs|
    ensures DistinctEnds(v.svcs[i]) && Handles(v.svcs[i]) <= v.fds && forall f :: f in v.fds ==> f >= 0
  {
    OpenFds(v);
  }

  /** With a logger, or when the launch fails, the slot keeps its log ends only. */
  lemma UnpipedFds(s: Service, t: int, o: Launched, fds: set<int>)
    requires s.active && DistinctEnds(s) && Handles(s) <= fds && (forall f :: f in fds ==> f >= 0)
    requires !(o.pid > 0 && o.loggerPid <= 0) && o.outRead == o.errRead == -1
    ensures fds - ReadEnds(s) == fds - Handles(s) + Handles(AfterLaunch(s, t, o))
  {
    HandlesOf(s);
    HandlesOf(AfterLaunch(s, t, o));
    DistinctEndsOf(s);
  }

  /** Without a logger, the slot takes two read ends and whichever log ends could be opened. */
  lemma PipedFds(s: Service, t: int, o: Launched, fds: set<int>)
    requires s.active && Handles(s) <= fds && (forall f :: f in fds ==> f >= 0)
    requires o.pid > 0 && o.loggerPid <= 0
    requires o.outRead >= 0 && o.errRead >= 0 && o.outLog >= -1 && o.errLog >= -1
    ensures fds - Handles(s) + {o.outRead, o.errRead} + NonNeg(o.outLog) + NonNeg(o.errLog)
         == fds - Handles(s) + Handles(AfterLaunch(s, t, o))
  {
    HandlesOf(AfterLaunch(s, t, o));
  }

  /** A launch written out. */
  lemma LaunchStep(v: World, i: nat, t: int, at: int, o: Launched)
    requires i < |v.svcs| && Due(v.svcs[i], t) && DepsSatisfied(v.svcs[i], v.svcs) && t <= Seconds(at) && Later(v, at)
    requires LegalLaunch(v, v.svcs[i], o)
    ensures var e, s := Do(i, Launch(t, at, o)), AfterLaunch(v.svcs[i], Seconds(at), o);
            && Legal(v, e)
            && Step(v, e) == World(v.svcs[i := s], v.children + Just(o.loggerPid) + Just(o.pid),
                                   v.fds - Handles(v.svcs[i]) + Handles(s), at, v.sent)
  {
    hide Handles, AfterLaunch, DepsSatisfied, LegalLaunch;
  }

  lemma PipedLegal(v: World, s: Service, o: Launched)
    requires LaunchAnswers(s.hasLog, o)
    requires o.loggerPid == -1 && o.pid > 0 && o.pid !in v.children && (forall f :: f in v.fds ==> f >= 0)
    requires o.outRead >= 0 && o.errRead >= 0 && o.outRead != o.errRead && o.outLog >= -1 && o.errLog >= -1
    requires o.outLog !in {o.outRead, o.errRead} && o.errLog !in {o.outRead, o.errRead}
    requires o.outLog >= 0 ==> o.outLog != o.errLog
    requires {o.outRead, o.errRead} !! v.fds - Handles(s) && NonNeg(o.outLog) + NonNeg(o.errLog) !! v.fds - Handles(s)
    ensures LegalLaunch(v, s, o)
  {
    hide Handles, LaunchAnswers;
  }

  lemma UnpipedSlot(s: Service, t: int, o: Launched)
    requires o.pid <= 0 || o.loggerPid > 0
    requires o.outRead == o.errRead == -1
    ensures var u := AfterLaunch(s, t, o);
            && u == s.(hasLog := u.hasLog, logPid := u.logPid, logState := u.logState, logStopping := u.logStopping,
                       pid := u.pid, state := u.state, startedAt := u.startedAt, manualStart := u.manualStart,
                       restartAt := u.restartAt,
                       streams := Streams(s.streams.out.(readFd := -1), s.streams.err.(readFd := -1)))
            && (o.loggerPid > 0 ==> u.hasLog && u.logPid == o.loggerPid && u.logState == Running && !u.logStopping)
            && (o.loggerPid <= 0 ==> !u.hasLog && u.logPid == s.logPid && u.logState == s.logState
                                     && u.logStopping == s.logStopping)
            && (o.pid > 0 ==> u.pid == o.pid && u.state == Running && u.startedAt == t && !u.manualStart
                              && u.restartAt == s.restartAt)
            && (o.pid <= 0 ==> u.pid == -1 && u.state == Failed && u.startedAt == s.startedAt
                               && u.manualStart == s.manualStart && u.restartAt == t + BACKOFF_SHORT)
  {
  }

  lemma PipedSlot(s: Service, t: int, o: Launched)
    requires o.pid > 0 && o.loggerPid == -1 && !s.stopping
    ensures AfterLaunch(s, t, o)
         == s.(hasLog := false, pid := o.pid, state := Running, startedAt := t, manualStart := false,
               streams := Streams(Stream(o.outRead, o.outLog, o.outLen, s.streams.out.rotations),
                                  Stream(o.errRead, o.errLog, o.errLen, s.streams.err.rotations)))
  {
  }

  /** The two log ends are closed and reopened one after the other while the read ends are held. */
  lemma ReopenFds(s: Service, fds: set<int>, r0: int, r1: int, l0: int, l1: int)
    requires s.active && DistinctEnds(s) && Handles(s) <= fds && (forall f :: f in fds ==> f >= 0)
    requires r0 >= 0 && r1 >= 0 && {r0, r1} !! fds - ReadEnds(s)
    requires l0 >= 0 ==> l0 !in fds - ReadEnds(s) + {r0, r1} - {s.streams.out.logFd}
    ensures fds - ReadEnds(s) + {r0, r1} - {s.streams.out.logFd} + NonNeg(l0) - {s.streams.err.logFd} + NonNeg(l1)
         == fds - Handles(s) + {r0, r1} + NonNeg(l0) + NonNeg(l1)
    ensures s.streams.out.logFd >= 0 ==> s.streams.out.logFd in fds - ReadEnds(s) + {r0, r1}
    ensures s.streams.err.logFd >= 0 ==>
              s.streams.err.logFd in fds - ReadEnds(s) + {r0, r1} - {s.streams.out.logFd} + NonNeg(l0)
  {
    HandlesOf(s);
    DistinctEndsOf(s);
    var a, b := s.streams.out.logFd, s.streams.err.logFd;
    assert a >= 0 ==> a in Handles(s);
    assert b >= 0 ==> b in Handles(s);
  }

  lemma FreshLogs(s: Service, fds: set<int>, r0: int, r1: int, l0: int, l1: int)
    requires s.active && DistinctEnds(s) && Handles(s) <= fds && (forall f :: f in fds ==> f >= 0)
    requires r0 >= 0 && r1 >= 0 && {r0, r1} !! fds - ReadEnds(s)
    requires l0 >= 0 ==> l0 !in fds - ReadEnds(s) + {r0, r1} - {s.streams.out.logFd}
    requires l1 >= 0 ==>
               l1 !in fds - ReadEnds(s) + {r0, r1} - {s.streams.out.logFd} + NonNeg(l0) - {s.streams.err.logFd}
    ensures l0 >= 0 ==> l0 !in {r0, r1} && l0 != l1
    ensures l1 >= 0 ==> l1 !in {r0, r1}
    ensures NonNeg(l0) + NonNeg(l1) !! fds - Handles(s)
  {
    HandlesOf(s);
    DistinctEndsOf(s);
    var a, b := s.streams.out.logFd, s.streams.err.logFd;
    assert a >= 0 ==> a in Handles(s);
    assert b >= 0 ==> b in Handles(s);
  }

  /** Of two pipes, the supervisor closes the write ends, and the read ends too when the fork fails. */
  lemma KeptPipeEnds(fds: set<int>, outR: int, outW: int, errR: int, errW: int)
    requires outR != outW && outR != errR && outR != errW && outW != errR && outW != errW && errR != errW
    requires {outR, outW, errR, errW} !! fds
    ensures fds + {outR, outW, errR, errW} - {outW} - {errW} == fds + {outR, errR}
    ensures fds + {outR, errR} - {outR} - {errR} == fds
  {
  }

  lemma NewReadEnds(s: Service, fds: set<int>, r0: int, r1: int)
    requires s.active && (forall f :: f in fds ==> f >= 0) && {r0, r1} !! fds - ReadEnds(s)
    ensures {r0, r1} !! fds - Handles(s)
  {
    HandlesOf(s);
  }
}
