/**
 The operating system as the supervisor sees it. Its answers are arbitrary within what a kernel guarantees.
 The preconditions are obligations of the supervisor: it signals only children it has not waited for, and
 closes only descriptors that are open.
 */
module Kernels {
  import opened Types
  import opened KernelAnswers
  import opened Machine
  import opened FileSystem

  /** An hour before the end of the range of the clock. */
  const CLOCK_MAX: int := NEVER - 3600

  /** The clock may have moved, but not into its last hour. */
  predicate Ticks(before: int, after: int) {
    Seconds(after) <= Seconds(before) || Seconds(after) <= CLOCK_MAX
  }

  class Kernel {
    var children: set<int>
    var fds: set<int>
    var ms: int
    var sent: seq<Signal>

    // All answers so far, in order.
    var answers: seq<Answer>

    // What reads have returned so far, and how many more can return data until the writers get to run again.
    var received: seq<Chunk>
    var unread: nat

    var files: Files

    // How many attempts to open or write a log file have failed.
    var refusals: nat

    constructor ()
      ensures children == {} && fds == {} && sent == []
      ensures Seconds(ms) <= CLOCK_MAX && Plain(files) && received == [] && refusals == 0 && answers == []
    {
      var booted, found: Files := *, *;
      children, fds, sent := {}, {}, [];
      ms := if Seconds(booted) <= CLOCK_MAX then booted else 0;
      answers, received, unread, refusals := [], [], *, 0;
      files := if Plain(found) then found else Files(map[], map[], map[]);
    }

    method Kill(pid: int, sig: int, group: bool)
      requires pid > 0 && pid in children
      modifies this`sent
      ensures sent == old(sent) + [Signal(pid, sig, group)]
    {
      sent := sent + [Signal(pid, sig, group)];
    }

    /** `access` for execution. */
    method Access() returns (ok: bool)
      modifies this`answers
      ensures answers == old(answers) + [Executable(ok)]
    {
      ok := *;
      answers := answers + [Executable(ok)];
    }

    /** The parent's side of `fork`. */
    method Fork() returns (pid: int)
      modifies this`children, this`answers
      ensures pid > 0 ==> pid !in old(children)
      ensures children == old(children) + Just(pid) && answers == old(answers) + [Forked(pid)]
    {
      pid := *;
      if pid > 0 && pid !in children {
        children := children + {pid};
      } else {
        pid := -1;
      }
      answers := answers + [Forked(pid)];
    }

    /** `waitpid(-1, &status, WNOHANG)`. */
    method WaitAny() returns (pid: int, status: int)
      modifies this`children, this`answers
      ensures pid > 0 ==> pid in old(children)
      ensures children == old(children) - Just(pid) && answers == old(answers) + [Waited(pid)]
    {
      pid, status := *, *;
      if pid > 0 && pid in children {
        children := children - {pid};
      } else {
        pid := 0;
      }
      answers := answers + [Waited(pid)];
    }

    /** `waitpid(pid, &status, 0)`: waits for this one child. */
    method WaitFor(pid: int) returns (status: int)
      requires pid > 0 && pid in children
      modifies this`children, this`answers
      ensures children == old(children) - {pid} && answers == old(answers) + [Ended(status)]
    {
      status := *;
      children := children - {pid};
      answers := answers + [Ended(status)];
    }

    method Close(fd: int)
      requires fd >= 0 ==> fd in fds
      modifies this`fds
      ensures fds == old(fds) - {fd}
    {
      fds := fds - {fd};
    }

    method Pipe() returns (r: int, w: int)
      modifies this`fds, this`answers
      ensures answers == old(answers) + [Piped(r >= 0)]
      ensures r >= 0 ==> w >= 0 && r != w && r !in old(fds) && w !in old(fds) && fds == old(fds) + {r, w}
      ensures r < 0 ==> r == w == -1 && fds == old(fds)
    {
      r, w := *, *;
      if r >= 0 && w >= 0 && r != w && r !in fds && w !in fds {
        fds := fds + {r, w};
      } else {
        r, w := -1, -1;
      }
      answers := answers + [Piped(r >= 0)];
    }

    /** `open` with O_WRONLY | O_CREAT | O_APPEND. */
    method OpenAppend(path: Text) returns (fd: int)
      modifies this`fds, this`files, this`refusals, this`answers
      ensures fd >= -1 && (fd >= 0 ==> fd !in old(fds)) && fds == old(fds) + (if fd >= 0 then {fd} else {})
      ensures OpenedAs(old(files), path, fd, files) && answers == old(answers) + [Opened(fd)]
      ensures refusals == old(refusals) + if fd < 0 then 1 else 0
    {
      fd := *;
      var n: int := *;
      if fd < 0 || fd in fds || (path !in files.names && n in files.inodes)
         || (path in files.names && files.names[path] !in files.inodes) {
        fd := -1;
        refusals := refusals + 1;
      } else {
        if path !in files.names {
          files := files.(names := files.names[path := n], inodes := files.inodes[n := []]);
        }
        files := files.(target := files.target[fd := files.names[path]]);
        fds := fds + {fd};
      }
      answers := answers + [Opened(fd)];
    }

    /** One `write`: some of the data is appended to the file, or none and the call has failed. */
    method Write(fd: int, data: Text) returns (r: int)
      requires fd in fds
      modifies this`files, this`refusals
      ensures r <= |data| && files == if r > 0 then Appended(old(files), fd, data[..r]) else old(files)
      ensures refusals == old(refusals) + if r <= 0 then 1 else 0
    {
      r := *;
      if r > |data| {
        r := |data|;
      }
      if r > 0 {
        files := Appended(files, fd, data[..r]);
      } else {
        refusals := refusals + 1;
      }
    }

    /** One non-blocking `read` into the drain buffer. */
    method Read(fd: int) returns (r: Chunk)
      requires fd in fds
      modifies this`received, this`unread
      ensures received == old(received) + [r]
      ensures r.Data? ==> 0 < |r.b| <= IO_BUF && unread < old(unread)
      ensures !r.Data? ==> unread == old(unread)
    {
      r := *;
      if r.Data? && (unread == 0 || r.b == [] || |r.b| > IO_BUF) {
        r := Again;
      }
      if r.Data? {
        unread := unread - 1;
      }
      received := received + [r];
    }

    /** `sleep_ms`, for at most a second. */
    method Sleep(d: nat)
      requires d <= 1000 && Seconds(ms) + 1 + RESTART_WINDOW < NEVER
      modifies this`ms, this`unread
      ensures old(ms) + d <= ms && Seconds(ms) + RESTART_WINDOW < NEVER
      ensures Seconds(ms) <= Seconds(old(ms)) + 1 || Seconds(ms) <= CLOCK_MAX
    {
      var later := *;
      unread := *;
      ms := if later >= ms + d && Seconds(later) <= CLOCK_MAX then later else ms + d;
    }

    method Rename(src: Text, dst: Text)
      modifies this`files
      ensures RenamedAs(old(files), src, dst, files)
    {
      var permitted: bool := *;
      if permitted && src in files.names && src != dst {
        files := files.(names := (files.names - {src})[dst := files.names[src]]);
      }
    }

    /** `mono_now`: the monotonic clock in whole seconds, which does not jump to the end of its range. */
    method MonoNow() returns (t: int)
      requires Seconds(ms) + RESTART_WINDOW < NEVER
      modifies this`ms
      ensures old(ms) <= ms && t == Seconds(ms) && t + RESTART_WINDOW < NEVER
      ensures Ticks(old(ms), ms)
    {
      var later := *;
      if later >= ms && Seconds(later) <= CLOCK_MAX {
        ms := later;
      }
      t := Seconds(ms);
    }
  }
}
