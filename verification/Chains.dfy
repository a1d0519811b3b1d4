/**
  What the wiring amounts to: a pipeline is a linear chain, and no other process holds an
  end of the pipes between its stages, so each reader sees end-of-file when its writer exits.
  */
module Chains {
  import opened Kernel
  import opened Options
  import opened Pipeline
  import opened SlotTable
  import opened Wiring

  /** Every pipe a table of descriptors mentions has a number below n. */
  ghost predicate Below(fds: Fds, n: nat) {
    forall f :: f in fds && IsPipe(fds[f]) ==> fds[f].pipe < n
  }

  ghost predicate AllBelow(children: seq<Child>, n: nat) {
    forall i :: 0 <= i < |children| ==> Below(children[i].fds, n)
  }

  lemma {:induction false} StagesAt(entry: Fds, t: Table, u: Users, line: Line, p0: nat, n: nat, i: nat)
    requires Ready(entry, t, u, line) && i < n
    ensures |Stages(entry, t, u, line, p0, n)| == n
    ensures Stages(entry, t, u, line, p0, n)[i] ==
            Child(u.me, Runs(entry - Shed(t, u, line),
                             if i == 0 then Source(entry, t, u, line) else ReadEnd(p0 + i - 1),
                             WriteEnd(p0 + i), entry[u.sock]), None)
  {
    if i < n - 1 {
      StagesAt(entry, t, u, line, p0, n - 1, i);
    } else if n > 1 {
      StagesAt(entry, t, u, line, p0, n - 1, 0);
    }
  }

  lemma SourceBelow(entry: Fds, t: Table, u: Users, line: Line, n: nat)
    requires Ready(entry, t, u, line) && Below(entry, n)
    ensures IsPipe(Source(entry, t, u, line)) ==> Source(entry, t, u, line).pipe < n
  {
  }

  /** The i-th command of a finished pipeline. */
  lemma CommandAt(x: Turn, i: nat)
    requires PipelineDone(x) && i < x.line.stages
    ensures |x.children| == |x.before| + x.line.stages
    ensures i < x.line.stages - 1 ==>
              x.children[|x.before| + i] ==
              Child(x.u.me, Runs(x.entry - Shed(x.t, x.u, x.line),
                                 if i == 0 then Source(x.entry, x.t, x.u, x.line) else ReadEnd(x.p0 + i - 1),
                                 WriteEnd(x.p0 + i), x.entry[x.u.sock]), None)
    ensures i == x.line.stages - 1 ==>
              x.children[|x.before| + i] ==
              LastChild(BeforeLast(x.entry, x.t, x.u, x.line, x.fdRedir), x.t, AfterInput(x.t, x.u, x.line), x.line,
                        x.p0 + x.line.stages - 2, x.p0 + x.line.stages - 1, x.fd0, x.fd1, x.fdRedir)
  {
    StagesAt(x.entry, x.t, x.u, x.line, x.p0, x.line.stages - 1, if i < x.line.stages - 1 then i else 0);
  }

  /** Only the given command writes to, and only the next one reads from, pipe p. */
  ghost predicate OnlyLink(children: seq<Child>, p: nat, writer: nat) {
    forall c, f :: 0 <= c < |children| && f in children[c].fds ==>
      && (children[c].fds[f] == WriteEnd(p) <==> c == writer && f == STDOUT)
      && (children[c].fds[f] == ReadEnd(p) <==> c == writer + 1 && f == STDIN)
  }

  /** Stage i writes to the pipe that stage i+1 reads, and nobody else has an end of it. */
  ghost predicate Linked(x: Turn, i: nat) {
    var n := |x.before| + i;
    && n + 1 < |x.children|
    && STDOUT in x.children[n].fds && x.children[n].fds[STDOUT] == WriteEnd(x.p0 + i)
    && STDIN in x.children[n + 1].fds && x.children[n + 1].fds[STDIN] == ReadEnd(x.p0 + i)
    && OnlyLink(x.children, x.p0 + i, n)
    && forall f :: f in x.fds ==> x.fds[f] != WriteEnd(x.p0 + i) && x.fds[f] != ReadEnd(x.p0 + i)
  }

  lemma StageEnds(x: Turn, i: nat, c: nat, f: int)
    requires PipelineDone(x) && Below(x.entry, x.p0) && i < x.line.stages - 1 && c < x.line.stages
    requires |x.children| == |x.before| + x.line.stages && f in x.children[|x.before| + c].fds
    ensures x.children[|x.before| + c].fds[f] == WriteEnd(x.p0 + i) <==> c == i && f == STDOUT
    ensures x.children[|x.before| + c].fds[f] == ReadEnd(x.p0 + i) <==> c == i + 1 && f == STDIN
  {
    CommandAt(x, c);
    SourceBelow(x.entry, x.t, x.u, x.line, x.p0);
  }

  lemma ServerHoldsNoStage(x: Turn, i: nat)
    requires PipelineDone(x) && Below(x.entry, x.p0) && i < x.line.stages - 1
    ensures forall f :: f in x.fds ==> x.fds[f] != WriteEnd(x.p0 + i) && x.fds[f] != ReadEnd(x.p0 + i)
  {
  }

  lemma StageIsOnlyLink(x: Turn, i: nat)
    requires PipelineDone(x) && Below(x.entry, x.p0) && AllBelow(x.before, x.p0) && i < x.line.stages - 1
    ensures OnlyLink(x.children, x.p0 + i, |x.before| + i)
  {
    CommandAt(x, i);
    var n := |x.before|;
    assert x.children[..n] == x.before;
    forall c, f | 0 <= c < |x.children| && f in x.children[c].fds
      ensures x.children[c].fds[f] == WriteEnd(x.p0 + i) <==> c == n + i && f == STDOUT
      ensures x.children[c].fds[f] == ReadEnd(x.p0 + i) <==> c == n + i + 1 && f == STDIN
    {
      if c < n {
        assert x.children[c] == x.before[c] && Below(x.before[c].fds, x.p0);
      } else {
        StageEnds(x, i, c - n, f);
      }
    }
  }

  lemma StageLinked(x: Turn, i: nat)
    requires PipelineDone(x) && Below(x.entry, x.p0) && AllBelow(x.before, x.p0) && i < x.line.stages - 1
    ensures Linked(x, i)
  {
    CommandAt(x, i);
    CommandAt(x, i + 1);
    ServerHoldsNoStage(x, i);
    StageIsOnlyLink(x, i);
    hide PipelineDone, Below, AllBelow, OnlyLink, BeforeLast, AfterInput;
  }

  /**
    For every pipeline of two or more stages: the standard output of stage i and the
    standard input of stage i+1 are the two ends of one pipe; no other descriptor of any
    command, old or new, is an end of it; and the server holds neither end.
    */
  lemma PipelineIsChain(x: Turn)
    requires PipelineDone(x) && Below(x.entry, x.p0) && AllBelow(x.before, x.p0)
    ensures |x.children| == |x.before| + x.line.stages && x.children[..|x.before|] == x.before
    ensures forall i: nat :: i < x.line.stages - 1 ==> Linked(x, i)
  {
    CommandAt(x, 0);
    forall i: nat | i < x.line.stages - 1
      ensures Linked(x, i)
    {
      StageLinked(x, i);
    }
  }
}
