/**
  When no step is left that somebody has begun, every tell, yell, broadcast and offer of a
  FIFO is complete, unless some processes wait for each other in a knot; and a run with k
  prompts and connections has at most a fixed multiple of k steps.

  Two things do block: a knot of offers, as when two clients offer each other a FIFO at once
  or one offers a FIFO to itself; and `tell 0`, which is also what `tell` makes of a name that
  is not a number, and which waits on the semaphore of record 0 that no one ever initialises
  or posts.
  */
module HandoffProgress {
  import opened Handoff
  import opened HandoffAdmission
  import opened HandoffKnots
  import opened HandoffPipes
  import opened HandoffTokens

  /** Steps that go on with something begun, as opposed to new connections and new lines. */
  predicate Continues(l: Label) {
    !l.Accept? && !l.Start?
  }

  /** What every reachable state keeps. */
  ghost predicate Sound(s: State) {
    Safe(s) && Pipes(s) && NamesFree(s) && NewcomerOrPost(s)
  }

  /** The process waits for the semaphore of record 0. */
  predicate StuckOnZero(pc: Pc) {
    pc.Send? && pc.send.SemWait? && pc.to == 0
  }

  /** Nothing is under way. */
  ghost predicate AtRest(s: State) {
    && (forall p :: 0 <= p < |s.procs| ==>
          !Busy(s.procs[p]) && (s.procs[p].pc.Idle? || s.procs[p].pc.Exited? || StuckOnZero(s.procs[p].pc)))
    && (forall j :: 1 <= j < |s.clients| ==> s.clients[j].lock == 1)
    && s.lock2 == 1
    && (s.parent.Accepting? || (s.parent.Recheck? && s.clientNum == MaxId(s)))
  }

  // ---- No deadlock ----

  ghost predicate CanContinue(s: State)
    requires WellFormed(s)
  {
    exists l :: Continues(l) && Enabled(s, l)
  }

  lemma Witness(s: State, l: Label)
    requires WellFormed(s) && Continues(l) && Enabled(s, l)
    ensures CanContinue(s)
  {
  }

  /** The processes whose handler opens a FIFO. */
  ghost function Openers(s: State): set<nat> {
    set p | 0 <= p < |s.procs| && s.procs[p].handler == Running(Usr2)
  }

  /** A process that opens a FIFO and whose writer cannot go on either waits for another one that opens a FIFO. */
  lemma OpenerIsTied(s: State, p: nat)
    requires Sound(s) && p in Openers(s)
    ensures CanContinue(s) || Tied(s, Openers(s), p)
  {
    var q := AwaitsOne(s, p);
    if !Busy(s.procs[q]) {
      Witness(s, Rendezvous(p, q));
    } else {
      assert ReceiverOk(s, q);
      match s.procs[q].handler
      case Running(signal) => if signal == Usr1 { Witness(s, Handle(q)); } else { assert Tied(s, Openers(s), p); }
      case Posting => Witness(s, PostMailbox(q));
      case NoHandler =>
        var signal: Signal :| signal in s.procs[q].pending;
        Witness(s, Deliver(q, signal));
    }
  }

  lemma OpenersAreKnot(s: State)
    requires Sound(s) && WellFormed(s) && Openers(s) != {}
    ensures CanContinue(s) || Knot(s, Openers(s))
  {
    hide Sound, WellFormed, CanContinue, Openers, Tied;
    if !CanContinue(s) {
      forall q: nat | q in Openers(s)
        ensures Tied(s, Openers(s), q)
      {
        OpenerIsTied(s, q);
      }
    }
  }

  lemma OpenerGoesOn(s: State, p: nat)
    requires Sound(s) && !Knotted(s) && p in Openers(s)
    ensures CanContinue(s)
  {
    assert WellFormed(s);
    hide Sound, WellFormed, CanContinue, Openers, Knot;
    OpenersAreKnot(s);
  }

  /** A pending signal is delivered, and a handler runs to its end, whatever its process waits for. */
  lemma BusyGoesOn(s: State, p: nat)
    requires Sound(s) && !Knotted(s) && p < |s.procs| && Busy(s.procs[p])
    ensures CanContinue(s)
  {
    assert ReceiverOk(s, p);
    match s.procs[p].handler
    case Running(signal) => if signal == Usr1 { Witness(s, Handle(p)); } else { OpenerGoesOn(s, p); }
    case Posting => Witness(s, PostMailbox(p));
    case NoHandler =>
      var signal: Signal :| signal in s.procs[p].pending;
      Witness(s, Deliver(p, signal));
  }

  /** A name for a FIFO is made, or somebody who makes one goes on. */
  lemma NamerGoesOn(s: State, p: nat)
    requires Sound(s) && !Knotted(s) && p < |s.procs| && s.procs[p].pc.Naming?
    ensures CanContinue(s)
  {
    if Busy(s.procs[p]) {
      BusyGoesOn(s, p);
    } else if s.procs[p].pc.held || s.fifoLock > 0 {
      Witness(s, Name(p));
    } else {
      var q: nat :| q < |s.procs| && s.procs[q].pc.Naming? && s.procs[q].pc.held;
      if Busy(s.procs[q]) { BusyGoesOn(s, q); } else { Witness(s, Name(q)); }
    }
  }

  /** A writer's receiver still has its signal to handle. */
  lemma WriterGoesOn(s: State, p: nat)
    requires Sound(s) && !Knotted(s) && p < |s.procs| && s.procs[p].pc.OpenWrite?
    ensures CanContinue(s)
  {
    assert AimOk(s, p);
    var j := s.procs[p].pc.target;
    assert TokenOk(s, j);
    BusyGoesOn(s, s.clients[j].log[|s.clients[j].log| - 1].status.to);
  }

  lemma HolderGoesOn(s: State, p: nat)
    requires Sound(s) && !Knotted(s) && p < |s.procs| && Holding(s.procs[p].pc)
    ensures CanContinue(s)
  {
    if Busy(s.procs[p]) {
      BusyGoesOn(s, p);
    } else {
      Witness(s, HandOver(p));
    }
  }

  /** A taken mailbox lock waits for its holder or for its receiver's handler only. */
  lemma TakenLockGoesOn(s: State, j: nat)
    requires Sound(s) && !Knotted(s) && 1 <= j < |s.clients| && s.clients[j].lock != 1
    ensures CanContinue(s)
  {
    assert TokenOk(s, j);
    var e := s.clients[j].log[|s.clients[j].log| - 1];
    if e.status.Taken? {
      HolderGoesOn(s, e.sender);
    } else {
      BusyGoesOn(s, e.status.to);
    }
  }

  predicate AsksForLock2(pc: Pc) {
    (pc.Login? && pc.login.AskLock2?) || (pc.Logout? && pc.logout.AskAgain?)
  }

  lemma ActiveGoesOn(s: State, p: nat)
    requires Sound(s) && !Knotted(s) && p < |s.procs|
    requires !s.procs[p].pc.Idle? && !s.procs[p].pc.Exited? && !StuckOnZero(s.procs[p].pc)
             && !AsksForLock2(s.procs[p].pc)
    ensures CanContinue(s)
  {
    if Busy(s.procs[p]) {
      BusyGoesOn(s, p);
    } else {
      match s.procs[p].pc
      case Login(_, _) => Witness(s, LogIn(p));
      case Logout(_, _) => Witness(s, LogOut(p));
      case Leave => Witness(s, LogOut(p));
      case Broadcast(_, _, _) => Witness(s, Loop(p));
      case Send(step, to, _, _) =>
        assert ProcFormed(s.procs[p], MaxId(s));
        if step.SemWait? && s.clients[to].lock == 0 { TakenLockGoesOn(s, to); } else { Witness(s, HandOver(p)); }
      case Naming(_, _) => NamerGoesOn(s, p);
      case OpenWrite(_, _) => WriterGoesOn(s, p);
    }
  }

  lemma Lock2GoesOn(s: State)
    requires Sound(s) && !Knotted(s) && s.lock2 != 1
    ensures CanContinue(s)
  {
    var p :| 0 <= p < |s.procs| && Critical(s.procs[p].pc);
    assert ProcFormed(s.procs[p], MaxId(s));
    ActiveGoesOn(s, p);
  }

  lemma ProcGoesOn(s: State, p: nat)
    requires Sound(s) && !Knotted(s) && p < |s.procs|
    requires Busy(s.procs[p]) || !(s.procs[p].pc.Idle? || s.procs[p].pc.Exited? || StuckOnZero(s.procs[p].pc))
    ensures CanContinue(s)
  {
    if Busy(s.procs[p]) {
      BusyGoesOn(s, p);
    } else if !AsksForLock2(s.procs[p].pc) {
      ActiveGoesOn(s, p);
    } else if s.lock2 != 1 {
      Lock2GoesOn(s);
    } else {
      Witness(s, if s.procs[p].pc.Login? then LogIn(p) else LogOut(p));
    }
  }

  lemma ParentGoesOn(s: State)
    requires Sound(s) && !Knotted(s) && !(s.parent.Accepting? || (s.parent.Recheck? && s.clientNum == MaxId(s)))
    ensures CanContinue(s)
  {
    if s.parent.Recheck? {
      Witness(s, ParentRechecks);
    } else if s.loginPosts > 0 {
      Witness(s, ParentWakes);
    } else {
      var p :| 0 <= p < |s.procs| && Newcomer(s.procs[p].pc);
      ProcGoesOn(s, p);
    }
  }

  /** While the parent waits for a login, its child is still coming or has already posted. */
  ghost predicate NewcomerOrPost(s: State) {
    s.parent.AwaitLogin? ==> s.loginPosts > 0 || exists p :: 0 <= p < |s.procs| && Newcomer(s.procs[p].pc)
  }

  /**
    Deadlock freedom: in a reachable state without a knot of waiting processes, either some
    step that is already begun can be taken, or everything is at rest: every process waits
    for its user (or for record 0), no signal is pending, every mailbox lock and lock2 is
    free, and the parent waits for a connection (or for a client to leave a full server).
    */
  lemma RestOrProgress(s: State)
    requires Sound(s) && !Knotted(s)
    ensures CanContinue(s) || AtRest(s)
  {
    if p :| 0 <= p < |s.procs| && (Busy(s.procs[p])
                                   || !(s.procs[p].pc.Idle? || s.procs[p].pc.Exited? || StuckOnZero(s.procs[p].pc))) {
      ProcGoesOn(s, p);
    } else if j :| 1 <= j < |s.clients| && s.clients[j].lock != 1 {
      TakenLockGoesOn(s, j);
    } else if s.lock2 != 1 {
      Lock2GoesOn(s);
    } else if !(s.parent.Accepting? || (s.parent.Recheck? && s.clientNum == MaxId(s))) {
      ParentGoesOn(s);
    }
  }

  lemma StepKeepsNewcomer(s: State, l: Label)
    requires Safe(s) && NewcomerOrPost(s) && Enabled(s, l)
    ensures NewcomerOrPost(Next(s, l))
  {
    hide Tokens, Ids;
    match l
    case Accept(g) => assert Newcomer(DoAccept(s, g).procs[|s.procs|].pc);
    case LogIn(p) => LogInKeepsNewcomer(s, p);
    case LogOut(p) =>
      assert forall q :: 0 <= q < |s.procs| && Newcomer(s.procs[q].pc) ==> Newcomer(DoLogOut(s, p).procs[q].pc);
    case ParentWakes =>
    case ParentRechecks =>
    case _ => OtherStepKeepsNewcomer(s, l);
  }

  lemma LogInKeepsNewcomer(s: State, p: nat)
    requires WellFormed(s) && NewcomerOrPost(s) && Enabled(s, LogIn(p))
    ensures NewcomerOrPost(DoLogIn(s, p))
  {
    var s' := DoLogIn(s, p);
    assert s.loginPosts <= s'.loginPosts;
    assert forall q :: 0 <= q < |s.procs| && q != p ==> s'.procs[q] == s.procs[q];
    assert Newcomer(s.procs[p].pc) ==> Newcomer(s'.procs[p].pc) || s'.loginPosts > 0;
  }

  lemma OtherStepKeepsNewcomer(s: State, l: Label)
    requires WellFormed(s) && NewcomerOrPost(s) && Enabled(s, l)
    requires l.Start? || l.Loop? || l.Name? || l.HandOver? || l.Deliver? || l.Handle? || l.Rendezvous? || l.PostMailbox?
    ensures NewcomerOrPost(Next(s, l))
  {
    OtherStepsKeepStages(s, l);
    assert forall q :: 0 <= q < |s.procs| ==> SameStage(s.procs[q], Next(s, l).procs[q]);
    assert forall q :: 0 <= q < |s.procs| && Newcomer(s.procs[q].pc) ==> Newcomer(Next(s, l).procs[q].pc);
  }

  lemma {:induction false} RunSound(n: nat, states: seq<State>, labels: seq<Label>, k: nat)
    requires IsRun(n, states, labels) && FreshIds(states, labels) && k < |states|
    ensures Sound(states[k])
  {
    RunKnots(n, states, labels, k);
    if k > 0 {
      RunSound(n, states, labels, k - 1);
      assert states[k] == Next(states[k - 1], labels[k - 1]) && Enabled(states[k - 1], labels[k - 1]);
      hide IsRun, FreshIds, Safe, Pipes, NamesFree, NewcomerOrPost, Enabled, Next;
      StepKeepsNewcomer(states[k - 1], labels[k - 1]);
    }
  }

  /**
    In every state of every run in which no step that is begun can be taken, everything is at
    rest if and only if there is no knot: nothing else can block messages, logins, logouts or
    offers of FIFOs.
    */
  lemma RestsExactlyWhen(n: nat, states: seq<State>, labels: seq<Label>, k: nat)
    requires IsRun(n, states, labels) && FreshIds(states, labels) && k < |states|
    ensures WellFormed(states[k])
    ensures CanContinue(states[k]) || AtRest(states[k]) || Knotted(states[k])
    ensures !CanContinue(states[k]) ==> (AtRest(states[k]) <==> !Knotted(states[k]))
  {
    RunSound(n, states, labels, k);
    var s := states[k];
    if knot :| Knot(s, knot) {
      KnotIsBusy(s, knot);
    } else {
      RestOrProgress(s);
    }
    hide IsRun, Sound, CanContinue, Knot;
  }

  lemma KnotIsBusy(s: State, knot: set<nat>)
    requires Knot(s, knot)
    ensures exists p :: 0 <= p < |s.procs| && Busy(s.procs[p])
  {
    var p: nat :| p in knot;
    assert Tied(s, knot, p);
    var q: nat :| q in knot && Awaits(s, p, q);
    assert Busy(s.procs[p]);
  }

  /**
    As long as no kill of the run has closed a knot, each state is at rest or some begun step
    can be taken.
    */
  lemma NoDeadlock(n: nat, states: seq<State>, labels: seq<Label>, k: nat)
    requires IsRun(n, states, labels) && FreshIds(states, labels) && k < |states| && !ClosedBefore(states, labels, k)
    ensures WellFormed(states[k]) && (CanContinue(states[k]) || AtRest(states[k]))
  {
    RunSound(n, states, labels, k);
    KnotsExactly(n, states, labels, k);
    hide IsRun, FreshIds, Knotted, ClosedBefore;
    RestOrProgress(states[k]);
  }

  // ---- `tell 0` ----

  /** A process waits for record 0 exactly from the moment its user tells user 0, and then for ever. */
  lemma TellZeroBlocks(s: State, l: Label, p: nat)
    requires WellFormed(s) && Enabled(s, l) && p < |s.procs|
    ensures p < |Next(s, l).procs|
    ensures StuckOnZero(Next(s, l).procs[p].pc) <==>
            StuckOnZero(s.procs[p].pc) || (l.Start? && l.p == p && l.command.TellTo? && l.command.id == 0)
  {
    match l
    case HandOver(q) => HandOverAndZero(s, q, p);
    case LogIn(q) => assert DoLogIn(s, q).procs == s.procs[q := DoLogIn(s, q).procs[q]];
    case LogOut(q) => assert DoLogOut(s, q).procs == s.procs[q := DoLogOut(s, q).procs[q]];
    case Start(q, c) => StartAndZero(s, q, c, p);
    case Loop(q) => assert ProcFormed(s.procs[q], MaxId(s));
    case _ =>
  }

  lemma StartAndZero(s: State, q: nat, c: Command, p: nat)
    requires WellFormed(s) && Enabled(s, Start(q, c)) && p < |s.procs|
    ensures |DoStart(s, q, c).procs| == |s.procs|
    ensures StuckOnZero(DoStart(s, q, c).procs[p].pc) <==>
            StuckOnZero(s.procs[p].pc) || (q == p && c.TellTo? && c.id == 0)
  {
  }

  lemma HandOverAndZero(s: State, q: nat, p: nat)
    requires WellFormed(s) && Enabled(s, HandOver(q)) && p < |s.procs|
    ensures |DoHandOver(s, q).procs| == |s.procs|
    ensures StuckOnZero(DoHandOver(s, q).procs[p].pc) <==> StuckOnZero(s.procs[p].pc)
  {
    assert ProcFormed(s.procs[q], MaxId(s));
    var to := s.procs[q].pc.to;
    if s.procs[q].pc.send.TestState? && s.clients[to].state { assert OwnedBy(s, to, s.clients[to].pid); }
  }

  // ---- A measure ----

  /** Steps left in a broadcast that is about to look at record `next`. */
  function LoopWork(n: int, next: int): nat {
    (if next <= n then (n + 1 - next) * 8 else 0) + 2
  }

  function AfterWork(n: int, after: After): nat {
    match after
    case Shell => 0
    case Resume(next, _, _) => LoopWork(n, next)
    case OpenFifo => 1
  }

  function PcWork(n: int, pc: Pc): nat {
    match pc
    case Login(step, _) =>
      LoopWork(n, 1) + (match step case AskLock2 => 5 case AddOne => 4 case Publish => 3 case Rescan => 2
                        case FreeLock2 => 1)
    case Broadcast(next, _, _) => LoopWork(n, next)
    case Naming(held, _) => if held then 9 else 10
    case Send(step, _, _, after) =>
      AfterWork(n, after) + (match step case SemWait => 7 case Fill => 6 case TestState => 5 case PostBack => 1)
    case OpenWrite(_, _) => 1
    case Logout(step, _) => LoopWork(n, 1) + (match step case AskAgain => 3 case Delete => 2 case SubOne => 1)
    case Leave => 1
    case _ => 0
  }

  function ProcWork(n: int, proc: Proc): nat {
    PcWork(n, proc.pc) + 3 * |proc.pending|
    + (match proc.handler case NoHandler => 0 case Running(_) => 2 case Posting => 1)
  }

  function SumWork(n: int, procs: seq<Proc>): nat {
    if procs == [] then 0 else SumWork(n, procs[..|procs| - 1]) + ProcWork(n, procs[|procs| - 1])
  }

  /** Bounds the number of steps that can follow before the next prompt or connection. */
  function Measure(s: State): nat {
    SumWork(MaxId(s), s.procs) + (match s.parent case Accepting => 0 case Recheck => 1 case AwaitLogin => 2)
  }

  function Fee(n: int): nat
    requires n >= 0
  {
    8 * n + 10
  }

  lemma SumUpdate(n: int, procs: seq<Proc>, p: nat, proc: Proc)
    requires p < |procs|
    ensures SumWork(n, procs[p := proc]) == SumWork(n, procs) - ProcWork(n, procs[p]) + ProcWork(n, proc)
  {
    if p == |procs| - 1 {
      assert procs[p := proc][..p] == procs[..p];
    } else {
      SumUpdate(n, procs[..|procs| - 1], p, proc);
      assert procs[p := proc][..|procs| - 1] == procs[..|procs| - 1][p := proc];
    }
  }

  lemma SumAppend(n: int, procs: seq<Proc>, proc: Proc)
    ensures SumWork(n, procs + [proc]) == SumWork(n, procs) + ProcWork(n, proc)
  {
    assert (procs + [proc])[..|procs|] == procs;
  }

  /** One process moves on, nothing else counts. */
  lemma OneMoves(s: State, s': State, p: nat, change: int)
    requires p < |s.procs| == |s'.procs| && s'.procs == s.procs[p := s'.procs[p]]
    requires |s'.clients| == |s.clients| && s'.parent == s.parent
    requires ProcWork(MaxId(s), s'.procs[p]) <= ProcWork(MaxId(s), s.procs[p]) + change
    ensures Measure(s') <= Measure(s) + change
  {
    SumUpdate(MaxId(s), s.procs, p, s'.procs[p]);
  }

  lemma RaiseCost(a: set<Signal>, signal: Signal)
    ensures |a + {signal}| <= |a| + 1
  {
    if signal in a { assert a + {signal} == a; }
  }

  lemma KillMoves(s: State, p: nat)
    requires WellFormed(s) && Enabled(s, HandOver(p)) && s.procs[p].pc.send.TestState?
    ensures Measure(DoKill(s, p)) < Measure(s)
  {
    var Send(_, to, r, after) := s.procs[p].pc;
    var s' := DoKill(s, p);
    if s.clients[to].state {
      var q := s.clients[to].pid;
      assert OwnedBy(s, to, q);
      var sent := SetPc(s, p, AfterSend(after, to, r));
      OneMoves(s, sent, p, -5);
      RaiseCost(sent.procs[q].pending, SignalOf(r));
      OneMoves(sent, s', q, 3);
    } else {
      OneMoves(s, s', p, -4);
    }
  }

  lemma HandOverMoves(s: State, p: nat)
    requires WellFormed(s) && Enabled(s, HandOver(p))
    ensures Measure(DoHandOver(s, p)) < Measure(s)
  {
    match s.procs[p].pc.send
    case TestState => KillMoves(s, p);
    case SemWait => OneMoves(s, DoTake(s, p), p, -1);
    case Fill => OneMoves(s, DoFill(s, p), p, -1);
    case PostBack => OneMoves(s, DoPostBack(s, p), p, -1);
  }

  lemma LoopMoves(s: State, p: nat)
    requires WellFormed(s) && Enabled(s, Loop(p))
    ensures Measure(DoLoop(s, p)) < Measure(s)
  {
    OneMoves(s, DoLoop(s, p), p, -1);
  }

  lemma RendezvousMoves(s: State, p: nat, w: nat)
    requires WellFormed(s) && Enabled(s, Rendezvous(p, w))
    ensures Measure(DoRendezvous(s, p, w)) < Measure(s)
  {
    var first := s.(procs := s.procs[w := s.procs[w].(pc := Idle)]);
    OneMoves(s, first, w, -1);
    OneMoves(first, DoRendezvous(s, p, w), p, -1);
  }

  lemma HandlerMoves(s: State, l: Label)
    requires WellFormed(s) && Enabled(s, l) && (l.Deliver? || l.Handle? || l.PostMailbox?)
    ensures Measure(Next(s, l)) < Measure(s)
  {
    if l.Deliver? {
      assert s.procs[l.p].pending == (s.procs[l.p].pending - {l.signal}) + {l.signal};
      assert |s.procs[l.p].pending - {l.signal}| + 1 == |s.procs[l.p].pending|;
    }
    OneMoves(s, Next(s, l), l.p, -1);
  }

  lemma StartCost(s: State, p: nat, c: Command)
    requires WellFormed(s) && Enabled(s, Start(p, c))
    ensures Measure(DoStart(s, p, c)) <= Measure(s) + Fee(MaxId(s))
  {
    OneMoves(s, DoStart(s, p, c), p, Fee(MaxId(s)));
  }

  lemma LogMoves(s: State, l: Label)
    requires WellFormed(s) && Enabled(s, l) && (l.LogIn? || l.LogOut? || l.Name?)
    ensures Measure(Next(s, l)) < Measure(s)
  {
    OneMoves(s, Next(s, l), l.p, -1);
  }

  lemma StepMoves(s: State, l: Label)
    requires WellFormed(s) && Enabled(s, l)
    ensures if Continues(l) then Measure(Next(s, l)) < Measure(s) else Measure(Next(s, l)) <= Measure(s) + Fee(MaxId(s))
  {
    match l
    case Accept(g) => SumAppend(MaxId(s), s.procs, Proc(0, Login(AskLock2, g), false, {}, NoHandler));
    case Start(p, c) => StartCost(s, p, c);
    case LogIn(p) => LogMoves(s, l);
    case LogOut(p) => LogMoves(s, l);
    case Name(p) => LogMoves(s, l);
    case Loop(p) => LoopMoves(s, p);
    case HandOver(p) => HandOverMoves(s, p);
    case Rendezvous(p, w) => RendezvousMoves(s, p, w);
    case ParentWakes =>
    case ParentRechecks =>
    case _ => HandlerMoves(s, l);
  }

  /** Connections and lines typed among the first k steps. */
  function Beginnings(labels: seq<Label>): nat {
    if labels == [] then 0
    else Beginnings(labels[..|labels| - 1]) + (if Continues(labels[|labels| - 1]) then 0 else 1)
  }

  /** What `b` beginnings pay for. */
  function Budget(n: nat, b: nat): nat {
    if b == 0 then 0 else Budget(n, b - 1) + Fee(n) + 1
  }

  lemma {:induction false} BudgetIsProduct(n: nat, b: nat)
    ensures Budget(n, b) == (Fee(n) + 1) * b
  {
    if b > 0 {
      BudgetIsProduct(n, b - 1);
      assert (Fee(n) + 1) * (b - 1) + (Fee(n) + 1) == (Fee(n) + 1) * b;
    }
  }

  lemma BeginningsStep(labels: seq<Label>, k: nat)
    requires k < |labels|
    ensures Beginnings(labels[..k + 1]) == Beginnings(labels[..k]) + (if Continues(labels[k]) then 0 else 1)
  {
    assert labels[..k + 1][..k] == labels[..k];
  }

  lemma StepCost(n: nat, states: seq<State>, labels: seq<Label>, k: nat)
    requires IsRun(n, states, labels) && k < |labels|
    ensures Measure(states[k + 1]) + 1 <= Measure(states[k]) + (if Continues(labels[k]) then 0 else Fee(n) + 1)
  {
    AdmissionHolds(n, states, labels, k);
    hide Measure, Mutex, Admission, WellFormed, Enabled, Next;
    StepMoves(states[k], labels[k]);
  }

  lemma InitialMeasure(n: nat, states: seq<State>, labels: seq<Label>)
    requires IsRun(n, states, labels)
    ensures Measure(states[0]) == 0
  {
  }

  lemma {:induction false} MeasureBound(n: nat, states: seq<State>, labels: seq<Label>, k: nat)
    requires IsRun(n, states, labels) && |states| == |labels| + 1 && k <= |labels|
    ensures Measure(states[k]) + k <= Budget(n, Beginnings(labels[..k]))
  {
    hide IsRun, Measure, Fee;
    if k == 0 {
      InitialMeasure(n, states, labels);
    } else {
      MeasureBound(n, states, labels, k - 1);
      StepCost(n, states, labels, k - 1);
      BeginningsStep(labels, k - 1);
    }
  }

  /**
    Every run is bounded by what its users did: with k connections and lines typed, at most
    (Fee(n) + 1) * k steps are taken in all, so the traffic they cause comes to an end.
    */
  lemma TrafficEnds(n: nat, states: seq<State>, labels: seq<Label>)
    requires IsRun(n, states, labels)
    ensures |labels| <= (Fee(n) + 1) * Beginnings(labels)
  {
    MeasureBound(n, states, labels, |labels|);
    assert labels[..|labels|] == labels;
    BudgetIsProduct(n, Beginnings(labels));
  }
}
