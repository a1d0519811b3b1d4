/**
  The part of the operating system that wiring needs: a process is a map from descriptors
  to open ends, `fork` copies it, `dup2` and `close` change it, and `pipe` adds the two
  ends of a new pipe at descriptors that were not in use. A pipe has a number of its own
  that is never used again, so two ends can be compared after descriptors were reused.
  */
module Kernel {
  datatype End =
    | ReadEnd(pipe: nat)
    | WriteEnd(pipe: nat)
    | Socket(client: nat)
    | File(name: nat)
    | Null
    | Console
    | Listener

  type Fds = map<int, End>

  const STDIN := 0
  const STDOUT := 1
  const STDERR := 2

  predicate IsPipe(e: End) {
    e.ReadEnd? || e.WriteEnd?
  }

  /** dup2 of a descriptor that is not open fails and changes nothing. */
  function Dup(fds: Fds, a: int, b: int): Fds {
    if a in fds then fds[b := fds[a]] else fds
  }

  /** Tables of descriptors are equal when the same descriptors are open on the same ends. */
  lemma EqualFds(a: Fds, b: Fds)
    requires a.Keys == b.Keys
    requires forall f: int :: f in a.Keys ==> a[f] == b[f]
    ensures a == b
  {
    forall f: int
      ensures f in a ==> a[f] == b[f]
    {
    }
    assert a.Keys == b.Keys;
  }

  class Process {
    var fds: Fds

    constructor Boot(fds: Fds)
      ensures this.fds == fds
    {
      this.fds := fds;
    }

    constructor Fork(parent: Process)
      ensures fds == parent.fds
    {
      fds := parent.fds;
    }

    method Close(fd: int)
      modifies this
      ensures fds == old(fds) - {fd}
    {
      fds := fds - {fd};
    }

    method Dup2(a: int, b: int)
      modifies this
      ensures fds == Dup(old(fds), a, b)
    {
      if a in fds { fds := fds[b := fds[a]]; }
    }

    /** A descriptor that is not in use; the standard ones always are. */
    method Open(e: End) returns (fd: int)
      modifies this
      ensures fd > 2 && fd !in old(fds) && fds == old(fds)[fd := e]
    {
      fd := 3;
      ghost var unused := set x | x in fds && x >= fd;
      while fd in fds
        invariant fd > 2 && fds == old(fds)
        invariant unused == set x | x in fds && x >= fd
        decreases unused
      {
        unused := unused - {fd};
        fd := fd + 1;
      }
      fds := fds[fd := e];
    }

    method Pipe(p: nat) returns (fd0: int, fd1: int)
      modifies this
      ensures fd0 > 2 && fd1 > 2 && fd0 != fd1 && fd0 !in old(fds) && fd1 !in old(fds)
      ensures fds == old(fds)[fd0 := ReadEnd(p)][fd1 := WriteEnd(p)]
    {
      fd0 := Open(ReadEnd(p));
      fd1 := Open(WriteEnd(p));
    }
  }
}
