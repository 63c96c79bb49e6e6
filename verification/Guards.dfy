/** Owned descriptors: the owner closes its descriptor when it is dropped, unless it has given it away before. */
module Guards {
  import opened KernelAnswers
  import opened Kernels

  class FdGuard {
    const fd: int
    var owned: bool

    constructor FromRaw(raw: int)
      requires raw >= 0
      ensures fd == raw && owned
    {
      fd, owned := raw, true;
    }

    /** The descriptor changes hands; the guard will not close it any more. */
    method IntoRaw() returns (raw: int)
      requires owned
      modifies this
      ensures raw == fd && !owned
    {
      owned := false;
      raw := fd;
    }

    /** The end of the guard's life. */
    method Drop(kernel: Kernel)
      requires owned ==> fd in kernel.fds
      modifies this, kernel`fds
      ensures !owned
      ensures kernel.fds == if old(owned) then old(kernel.fds) - {fd} else old(kernel.fds)
    {
      if owned {
        kernel.Close(fd);
        owned := false;
      }
    }
  }

  /** A pipe split into its two ends, each under a guard of its own. */
  method NewPipe(kernel: Kernel) returns (r: FdGuard?, w: FdGuard?)
    modifies kernel`fds, kernel`answers
    ensures kernel.answers == old(kernel.answers) + [Piped(r != null)]
    ensures r == null ==> w == null && kernel.fds == old(kernel.fds)
    ensures r != null ==> && w != null && fresh(r) && fresh(w) && r != w && r.owned && w.owned
                          && r.fd >= 0 && w.fd >= 0 && r.fd != w.fd
                          && r.fd !in old(kernel.fds) && w.fd !in old(kernel.fds)
                          && kernel.fds == old(kernel.fds) + {r.fd, w.fd}
  {
    r, w := null, null;
    var pr, pw := kernel.Pipe();
    if pr >= 0 {
      r := new FdGuard.FromRaw(pr);
      w := new FdGuard.FromRaw(pw);
    }
  }
}
