/**
  The user pipes stored in the client records of the multi-process server: how each entry
  comes and goes, and that a stored pipe always joins two ids in use. Also that a client that
  quit writes nothing any more.
  */
module HandoffRows {
  import opened Handoff
  import opened HandoffAdmission
  import opened HandoffPipes
  import opened HandoffTokens

  // ---- How an entry comes and goes ----

  /** A pipe from id `from` is stored for id `to`. */
  predicate HasPipe(s: State, to: nat, from: nat) {
    to < |s.clients| && from in s.clients[to].userPipe
  }

  /** The handler of id `to` opens the FIFO that id `from` offered, and has not stopped. */
  predicate Stores(s: State, l: Label, to: nat, from: nat) {
    && l.Rendezvous? && l.p < |s.procs| && l.writer < |s.procs|
    && s.procs[l.p].id == to && !s.procs[l.p].stopped && s.procs[l.writer].id == from
  }

  /** The user of id `to` types `<from`, and id `from` is in use. */
  predicate Reads(s: State, l: Label, to: nat, from: nat) {
    && l.Start? && l.command == ReadPipe(from) && l.p < |s.procs| && s.procs[l.p].id == to
    && 1 <= from < |s.clients| && s.clients[from].state
  }

  /** The record of id `i` is cleared by its process, which is logging out. */
  predicate Clears(s: State, l: Label, i: nat) {
    && l.LogOut? && l.p < |s.procs| && s.procs[l.p].id == i
    && s.procs[l.p].pc.Logout? && s.procs[l.p].pc.logout.Delete?
  }

  lemma StoringStep(s: State, p: nat, w: nat, to: nat, from: nat)
    requires Safe(s) && Pipes(s) && Enabled(s, Rendezvous(p, w)) && 1 <= to < |s.clients|
    ensures |DoRendezvous(s, p, w).clients| == |s.clients|
    ensures HasPipe(DoRendezvous(s, p, w), to, from) <==>
              HasPipe(s, to, from) || Stores(s, Rendezvous(p, w), to, from)
    ensures Stores(s, Rendezvous(p, w), to, from) ==> !HasPipe(s, to, from)
    ensures HasPipe(s, to, from) ==>
              DoRendezvous(s, p, w).clients[to].userPipe[from] == s.clients[to].userPipe[from]
  {
    RendezvousMeetsSender(s, p, w);
    hide Safe, Pipes, Mutex, Admission, Ids, Tokens;
  }

  lemma StartingStep(s: State, p: nat, c: Command, to: nat, from: nat)
    requires Safe(s) && Enabled(s, Start(p, c)) && 1 <= to < |s.clients|
    ensures |DoStart(s, p, c).clients| == |s.clients|
    ensures HasPipe(DoStart(s, p, c), to, from) <==> HasPipe(s, to, from) && !Reads(s, Start(p, c), to, from)
    ensures HasPipe(DoStart(s, p, c), to, from) ==>
              DoStart(s, p, c).clients[to].userPipe[from] == s.clients[to].userPipe[from]
  {
    assert WellFormed(s);
    hide Safe;
  }

  lemma LeavingStep(s: State, p: nat, to: nat, from: nat)
    requires Safe(s) && Enabled(s, LogOut(p)) && 1 <= to < |s.clients|
    ensures |DoLogOut(s, p).clients| == |s.clients|
    ensures HasPipe(DoLogOut(s, p), to, from) <==>
              && HasPipe(s, to, from)
              && !(Clears(s, LogOut(p), to) || (Clears(s, LogOut(p), from) && s.clients[to].state))
    ensures HasPipe(DoLogOut(s, p), to, from) ==>
              DoLogOut(s, p).clients[to].userPipe[from] == s.clients[to].userPipe[from]
  {
    assert WellFormed(s);
    hide Safe;
  }

  lemma OtherStep(s: State, l: Label, to: nat, from: nat)
    requires WellFormed(s) && Enabled(s, l) && 1 <= to < |s.clients| && !l.Rendezvous? && !l.Start? && !l.LogOut?
    ensures |Next(s, l).clients| == |s.clients| && Next(s, l).clients[to].userPipe == s.clients[to].userPipe
  {
  }

  /**
    A pipe is stored exactly by the rendezvous of its two clients, and taken out exactly when
    its reader types `<from`, or one of the two logs out; until then it is the same FIFO.
    */
  lemma EntryMoves(s: State, l: Label, to: nat, from: nat)
    requires Safe(s) && Pipes(s) && Enabled(s, l) && 1 <= to < |s.clients|
    ensures |Next(s, l).clients| == |s.clients|
    ensures HasPipe(Next(s, l), to, from) <==>
              || Stores(s, l, to, from)
              || (HasPipe(s, to, from) && !Reads(s, l, to, from) && !Clears(s, l, to)
                  && !(Clears(s, l, from) && s.clients[to].state))
    ensures HasPipe(s, to, from) && HasPipe(Next(s, l), to, from) ==>
              Next(s, l).clients[to].userPipe[from] == s.clients[to].userPipe[from]
  {
    assert WellFormed(s);
    hide Safe, Pipes, WellFormed, Enabled;
    if l.Rendezvous? {
      StoringStep(s, l.p, l.writer, to, from);
      hide DoRendezvous;
    } else if l.Start? {
      StartingStep(s, l.p, l.command, to, from);
      hide DoStart;
    } else if l.LogOut? {
      LeavingStep(s, l.p, to, from);
      hide DoLogOut;
    } else {
      OtherStep(s, l, to, from);
      hide Next;
    }
  }

  // ---- A stored pipe joins two ids in use ----

  predicate IsInUse(s: State, i: nat) {
    1 <= i < |s.clients| && s.clients[i].state
  }

  ghost predicate JoinsUsers(s: State) {
    forall to: nat, from: nat :: 1 <= to && HasPipe(s, to, from) ==> IsInUse(s, to) && IsInUse(s, from)
  }

  /** An id goes out of use only when its record is cleared. */
  lemma InUseStays(s: State, l: Label, i: nat)
    requires WellFormed(s) && Enabled(s, l) && IsInUse(s, i) && !Clears(s, l, i)
    ensures IsInUse(Next(s, l), i)
  {
  }

  lemma StorersAreUsers(s: State, l: Label, to: nat, from: nat)
    requires Safe(s) && Pipes(s) && Enabled(s, l) && Stores(s, l, to, from)
    ensures IsInUse(s, to) && IsInUse(s, from) && !Clears(s, l, to) && !Clears(s, l, from)
  {
    assert WellFormed(s);
    RendezvousMeetsSender(s, l.p, l.writer);
    assert Owner(s, l.p) && Owner(s, l.writer);
    hide Pipes, Mutex, Admission, Tokens;
  }

  lemma StepJoinsUsers(s: State, l: Label)
    requires Safe(s) && Pipes(s) && Enabled(s, l) && JoinsUsers(s)
    ensures JoinsUsers(Next(s, l))
  {
    assert WellFormed(s);
    hide Safe, Pipes, WellFormed, Enabled, Next, HasPipe, Stores, Reads, Clears, IsInUse;
    forall to: nat, from: nat | 1 <= to && HasPipe(Next(s, l), to, from)
      ensures IsInUse(Next(s, l), to) && IsInUse(Next(s, l), from)
    {
      PipeJoinsUsers(s, l, to, from);
    }
  }

  lemma PipeJoinsUsers(s: State, l: Label, to: nat, from: nat)
    requires Safe(s) && Pipes(s) && Enabled(s, l) && JoinsUsers(s) && 1 <= to && HasPipe(Next(s, l), to, from)
    ensures IsInUse(Next(s, l), to) && IsInUse(Next(s, l), from)
  {
    assert WellFormed(s);
    StepWellFormed(s, l);
    hide Safe, Pipes, WellFormed, Enabled, Next, Stores, Reads, Clears;
    EntryMoves(s, l, to, from);
    if Stores(s, l, to, from) { StorersAreUsers(s, l, to, from); }
    InUseStays(s, l, to);
    InUseStays(s, l, from);
  }

  /** In every state of every run a stored pipe joins two ids in use. */
  lemma {:induction false} PipesJoinUsers(n: nat, states: seq<State>, labels: seq<Label>, k: nat)
    requires IsRun(n, states, labels) && FreshIds(states, labels) && k < |states|
    ensures JoinsUsers(states[k])
  {
    if k > 0 {
      PipesJoinUsers(n, states, labels, k - 1);
      RunPipesAt(n, states, labels, k - 1);
      hide IsRun, FreshIds, Safe, Pipes, JoinsUsers;
      StepJoinsUsers(states[k - 1], labels[k - 1]);
    }
  }

  lemma RunPipesAt(n: nat, states: seq<State>, labels: seq<Label>, k: nat)
    requires IsRun(n, states, labels) && FreshIds(states, labels) && k < |labels|
    ensures |states| == |labels| + 1 && Safe(states[k]) && Pipes(states[k])
    ensures Enabled(states[k], labels[k]) && states[k + 1] == Next(states[k], labels[k])
  {
    RunPipes(n, states, labels, k);
    RunSafe(n, states, labels, k);
    hide Safe, Pipes, FreshIds;
  }

  // ---- A client that quit ----

  /** Only a handler of a process that has not stopped writes to a client's socket. */
  lemma ScreenGrows(s: State, l: Label, j: nat)
    requires WellFormed(s) && Enabled(s, l) && 1 <= j < |s.clients|
    ensures |Next(s, l).clients| == |s.clients|
    ensures Next(s, l).clients[j].screen == s.clients[j].screen
            || (l.Handle? && l.p < |s.procs| && !s.procs[l.p].stopped && s.procs[l.p].id == j
                && Next(s, l).clients[j].screen == s.clients[j].screen + [Line(l.p, s.clients[j].mailbox)])
  {
  }

  lemma HandOverStopped(s: State, h: nat, p: nat)
    requires WellFormed(s) && Enabled(s, HandOver(h)) && p < |s.procs|
    ensures p < |DoHandOver(s, h).procs| && DoHandOver(s, h).procs[p].stopped == s.procs[p].stopped
  {
  }

  lemma StaysStopped(s: State, l: Label, p: nat)
    requires WellFormed(s) && Enabled(s, l) && p < |s.procs|
    ensures p < |Next(s, l).procs|
    ensures Next(s, l).procs[p].stopped <==> s.procs[p].stopped || (l.Start? && l.p == p && l.command.Quit?)
  {
    if l.HandOver? { HandOverStopped(s, l.p, p); }
    hide WellFormed, DoHandOver;
  }

  /** Process p wrote nothing after the first `from` lines. */
  predicate WritesNothing(screen: seq<Line>, from: nat, p: nat) {
    from <= |screen| && forall i :: from <= i < |screen| ==> screen[i].owner != p
  }

  lemma NextWritesNothing(s: State, l: Label, p: nat, j: nat, from: nat)
    requires WellFormed(s) && Enabled(s, l) && 1 <= j < |s.clients| && p < |s.procs| && s.procs[p].stopped
    requires WritesNothing(s.clients[j].screen, from, p)
    ensures |Next(s, l).clients| == |s.clients| && WritesNothing(Next(s, l).clients[j].screen, from, p)
    ensures p < |Next(s, l).procs| && Next(s, l).procs[p].stopped
  {
    hide WellFormed, Enabled, Next;
    ScreenGrows(s, l, j);
    StaysStopped(s, l, p);
  }

  lemma {:induction false} StoppedWritesNothing(n: nat, states: seq<State>, labels: seq<Label>, k: nat, m: nat,
                                                p: nat, j: nat)
    requires IsRun(n, states, labels) && k <= m < |states| && 1 <= j <= n
    requires p < |states[k].procs| && states[k].procs[p].stopped && |states[k].clients| == n + 1
    ensures p < |states[m].procs| && states[m].procs[p].stopped && |states[m].clients| == n + 1
    ensures WritesNothing(states[m].clients[j].screen, |states[k].clients[j].screen|, p)
  {
    if m > k {
      StoppedWritesNothing(n, states, labels, k, m - 1, p, j);
      assert WellFormed(states[m - 1]) && Enabled(states[m - 1], labels[m - 1]);
      assert states[m] == Next(states[m - 1], labels[m - 1]);
      hide IsRun, WritesNothing, WellFormed, Enabled, Next;
      NextWritesNothing(states[m - 1], labels[m - 1], p, j, |states[k].clients[j].screen|);
    }
  }

  /** From the step in which a user quits, its process writes nothing to anybody's socket any more. */
  lemma QuitWritesNothing(n: nat, states: seq<State>, labels: seq<Label>, k: nat, m: nat, p: nat, farewell: string,
                          j: nat)
    requires IsRun(n, states, labels) && FreshIds(states, labels) && k < |labels| && k < m < |states| && 1 <= j <= n
    requires labels[k] == Start(p, Quit(farewell))
    ensures |states[k].clients| == n + 1 && |states[m].clients| == n + 1
    ensures WritesNothing(states[m].clients[j].screen, |states[k].clients[j].screen|, p)
  {
    RunSafe(n, states, labels, k);
    RunSafe(n, states, labels, k + 1);
    hide Safe, FreshIds;
    assert WellFormed(states[k]) && Enabled(states[k], labels[k]) && states[k + 1] == Next(states[k], labels[k]);
    StaysStopped(states[k], labels[k], p);
    ScreenGrows(states[k], labels[k], j);
    hide IsRun, WellFormed, Enabled, Next;
    StoppedWritesNothing(n, states, labels, k + 1, m, p, j);
  }
}
