/** What the kernel can answer, and which outcomes follow from its answers. */
module KernelAnswers {

  /** What the kernel answered when asked for something that can fail, or that may not be there. */
  datatype Answer =
    | Executable(ok: bool)
    | Piped(ok: bool)
    | Forked(pid: int)
    | Opened(fd: int)
    | Waited(pid: int)
    | Ended(status: int)

  predicate Becomes(forked: int, pid: int) {
    if forked > 0 then pid == forked else pid <= 0
  }

  /** A logger runs exactly when its script is executable, there is a pipe for it and the fork succeeds. */
  predicate LoggerAnswers(asked: seq<Answer>, hasLog: bool, pid: int) {
    if !hasLog then asked == [] && pid <= 0
    else
      || (asked == [Executable(false)] && pid <= 0)
      || (asked == [Executable(true), Piped(false)] && pid <= 0)
      || (|asked| == 3 && asked[0] == Executable(true) && asked[1] == Piped(true) && asked[2].Forked?
          && Becomes(asked[2].pid, pid))
  }

  /** Without a logger two pipes come first; the main process runs exactly when they are there and the fork succeeds. */
  predicate MainAnswers(asked: seq<Answer>, logged: bool, pid: int, outLog: int, errLog: int) {
    if logged then |asked| == 1 && asked[0].Forked? && Becomes(asked[0].pid, pid)
    else
      || (asked == [Piped(false)] && pid <= 0)
      || (asked == [Piped(true), Piped(false)] && pid <= 0)
      || (|asked| >= 3 && asked[0] == Piped(true) && asked[1] == Piped(true) && asked[2].Forked?
          && Becomes(asked[2].pid, pid)
          && asked[3..] == if pid > 0 then [Opened(outLog), Opened(errLog)] else [])
  }

  lemma NoPipes(asked: seq<Answer>, pid: int, outLog: int, errLog: int)
    requires (asked == [Piped(false)] || asked == [Piped(true), Piped(false)]) && pid <= 0
    ensures MainAnswers(asked, false, pid, outLog, errLog)
  {
  }

  lemma PipedMain(forked: int, pid: int, outLog: int, errLog: int)
    requires Becomes(forked, pid) && pid <= 0
    ensures MainAnswers([Piped(true), Piped(true), Forked(forked)], false, pid, outLog, errLog)
  {
    assert [Piped(true), Piped(true), Forked(forked)][3..] == [];
  }

  lemma OpenedMain(pid: int, outLog: int, errLog: int)
    requires pid > 0
    ensures var asked := [Piped(true), Piped(true), Forked(pid), Opened(outLog), Opened(errLog)];
            MainAnswers(asked, false, pid, outLog, errLog)
  {
    var asked := [Piped(true), Piped(true), Forked(pid), Opened(outLog), Opened(errLog)];
    assert asked[3..] == [Opened(outLog), Opened(errLog)];
  }

  lemma LoggedMain(forked: int, pid: int)
    requires Becomes(forked, pid)
    ensures MainAnswers([Forked(forked)], true, pid, -1, -1)
  {
  }

  /** A finish script runs exactly when it is executable and the fork succeeds. */
  predicate FinishAnswers(asked: seq<Answer>, pid: int) {
    || (asked == [Executable(false)] && pid <= 0)
    || (|asked| == 2 && asked[0] == Executable(true) && asked[1].Forked? && Becomes(asked[1].pid, pid))
  }

  /** A logger runs exactly when there is to be one, its script is executable, and the pipe and the fork succeed. */
  lemma LoggerIff(asked: seq<Answer>, hasLog: bool, pid: int)
    requires LoggerAnswers(asked, hasLog, pid)
    ensures pid > 0 <==> hasLog && |asked| == 3 && asked[2].Forked? && asked[2].pid > 0
    ensures pid > 0 ==> asked == [Executable(true), Piped(true), Forked(pid)]
    ensures (forall k :: 0 <= k < |asked| && asked[k].Forked? ==>
               k == 2 && asked[0] == Executable(true) && asked[1] == Piped(true))
    ensures asked == [] <==> !hasLog
  {
  }

  /**
   The service runs exactly when its fork succeeds; without a logger, two pipes must be there before it is forked,
   and the log files are opened after that.
   */
  lemma MainIff(asked: seq<Answer>, logged: bool, pid: int, outLog: int, errLog: int)
    requires MainAnswers(asked, logged, pid, outLog, errLog)
    ensures pid > 0 <==> exists k :: 0 <= k < |asked| && asked[k].Forked? && asked[k].pid > 0
    ensures pid > 0 ==>
              asked == if logged then [Forked(pid)]
                       else [Piped(true), Piped(true), Forked(pid), Opened(outLog), Opened(errLog)]
    ensures forall k :: 0 <= k < |asked| && asked[k].Forked? ==> logged || asked[..k] == [Piped(true), Piped(true)]
  {
    if logged {
      assert asked[0].Forked?;
    } else if |asked| >= 3 {
      assert asked[2].Forked?;
      assert asked == asked[..3] + asked[3..];
    }
  }

  /** A finish script runs exactly when it is executable and its fork succeeds; it is not forked otherwise. */
  lemma FinishIff(asked: seq<Answer>, pid: int)
    requires FinishAnswers(asked, pid)
    ensures pid > 0 <==> asked == [Executable(true), Forked(pid)] && pid > 0
    ensures forall k :: 0 <= k < |asked| && asked[k].Forked? ==> k == 1 && asked[0] == Executable(true)
    ensures |asked| == 2 && asked[1].pid > 0 ==> asked[1].pid == pid
  {
  }

  /** A check script is looked for, forked if it is there, and waited for if it runs. */
  predicate ScriptAnswers(asked: seq<Answer>) {
    || asked == [Executable(false)]
    || (|asked| == 2 && asked[0] == Executable(true) && asked[1].Forked? && asked[1].pid <= 0)
    || (|asked| == 3 && asked[0] == Executable(true) && asked[1].Forked? && asked[1].pid > 0 && asked[2].Ended?)
  }
}
