/**
  When the offer of a FIFO blocks. A handler that opens a FIFO for reading waits for its
  sender's open for writing, and a sender that was signalled meanwhile opens nothing before
  its own handler returns. A knot is a set of processes that wait for each other in this
  way. A knot lasts for ever, everybody outside a knot can still be served, and a knot is
  closed by exactly one kind of step: the `kill` for an offer whose sender already waits,
  itself or through others, for the receiver.
  */
module HandoffKnots {
  import opened Handoff
  import opened HandoffAdmission
  import opened HandoffPipes
  import opened HandoffTokens
  import opened Options

  /** The process has to open a FIFO before it can go on: SIGUSR2 is pending or its handler runs. */
  predicate Offered(proc: Proc) {
    Usr2 in proc.pending || proc.handler == Running(Usr2)
  }

  /** Process p has to open the FIFO of process q. */
  predicate Awaits(s: State, p: nat, q: nat) {
    && p < |s.procs| && Offered(s.procs[p]) && s.procs[p].id < |s.clients|
    && var e := LastEntry(s.clients[s.procs[p].id].log);
       e.Some? && e.value.sender == q && e.value.status.Committed?
  }

  ghost predicate Tied(s: State, knot: set<nat>, p: nat) {
    exists q: nat :: q in knot && Awaits(s, p, q)
  }

  /** Everybody in the set waits for somebody in the set. */
  ghost predicate Knot(s: State, knot: set<nat>) {
    knot != {} && forall p: nat {:trigger Tied(s, knot, p)} :: p in knot ==> Tied(s, knot, p)
  }

  ghost predicate Knotted(s: State) {
    exists knot :: Knot(s, knot)
  }

  // ---- Who waits for whom ----

  /** A process that was offered a FIFO waits for exactly one process, and that one is about to open it. */
  lemma AwaitsOne(s: State, p: nat) returns (q: nat)
    requires Safe(s) && Pipes(s) && p < |s.procs| && Offered(s.procs[p])
    ensures Awaits(s, p, q) && q < |s.procs| && 1 <= s.procs[p].id < |s.clients|
    ensures s.procs[q].pc.OpenWrite? && s.clients[s.procs[p].id].mailbox == Path(s.procs[q].pc.name)
    ensures s.procs[q].pc.target == s.procs[p].id
    ensures forall r: nat :: Awaits(s, p, r) ==> r == q
    ensures ReceiverOk(s, p) && ((s.procs[p].pending == {Usr2} && s.procs[p].handler == NoHandler)
                                 || (s.procs[p].pending == {} && s.procs[p].handler == Running(Usr2)))
  {
    assert ReceiverOk(s, p);
    var j := s.procs[p].id;
    assert OfferOk(s, j);
    q := s.clients[j].log[|s.clients[j].log| - 1].sender;
  }

  /** What process p waits with: itself and the record it reads. */
  predicate LeftAlone(s: State, s': State, p: nat)
    requires p < |s.procs|
  {
    && |s.clients| == |s'.clients| && |s.procs| <= |s'.procs|
    && s'.procs[p].id == s.procs[p].id && (Offered(s.procs[p]) ==> Offered(s'.procs[p]))
    && (1 <= s.procs[p].id < |s.clients| ==> s'.clients[s.procs[p].id].log == s.clients[s.procs[p].id].log)
  }

  lemma HandOverLeavesAlone(s: State, h: nat, p: nat)
    requires Safe(s) && Enabled(s, HandOver(h)) && p < |s.procs| && Offered(s.procs[p])
    ensures LeftAlone(s, DoHandOver(s, h), p)
  {
    OneReceiver(s, p);
    var to := s.procs[h].pc.to;
    assert to != s.procs[p].id;
    assert ReceiverOk(s, p);
    if h == p { assert s.procs[h].pc.send.TestState?; }
    hide Mutex, Admission, Tokens, Ids;
    if s.procs[h].pc.send.TestState? && s.clients[to].state { assert OwnedBy(s, to, s.clients[to].pid); }
  }

  lemma HandlerLeavesAlone(s: State, l: Label, p: nat)
    requires Safe(s) && Enabled(s, l) && p < |s.procs| && Offered(s.procs[p])
    requires l.Handle? || l.PostMailbox? || (l.Rendezvous? && l.p != p)
    ensures LeftAlone(s, Next(s, l), p)
  {
    OneReceiver(s, p);
    assert l.p != p && s.procs[l.p].id != s.procs[p].id;
    if l.Rendezvous? { assert l.writer != p; }
  }

  lemma LogInLeavesAlone(s: State, h: nat, p: nat)
    requires WellFormed(s) && Enabled(s, LogIn(h)) && p < |s.procs| && Offered(s.procs[p])
    ensures LeftAlone(s, DoLogIn(s, h), p)
  {
  }

  lemma LogOutLeavesAlone(s: State, h: nat, p: nat)
    requires WellFormed(s) && Enabled(s, LogOut(h)) && p < |s.procs| && Offered(s.procs[p])
    ensures LeftAlone(s, DoLogOut(s, h), p)
  {
  }

  lemma StartLeavesAlone(s: State, h: nat, c: Command, p: nat)
    requires WellFormed(s) && Enabled(s, Start(h, c)) && p < |s.procs| && Offered(s.procs[p])
    ensures LeftAlone(s, DoStart(s, h, c), p)
  {
  }

  lemma StepLeavesAlone(s: State, l: Label, p: nat)
    requires Safe(s) && Enabled(s, l) && p < |s.procs| && Offered(s.procs[p]) && !(l.Rendezvous? && l.p == p)
    ensures LeftAlone(s, Next(s, l), p)
  {
    assert ReceiverOk(s, p);
    hide Tokens, Mutex, Admission, Ids;
    match l
    case HandOver(h) => HandOverLeavesAlone(s, h, p);
    case Handle(h) => HandlerLeavesAlone(s, l, p);
    case PostMailbox(h) => HandlerLeavesAlone(s, l, p);
    case Rendezvous(h, w) => HandlerLeavesAlone(s, l, p);
    case LogIn(h) => LogInLeavesAlone(s, h, p);
    case LogOut(h) => LogOutLeavesAlone(s, h, p);
    case Start(h, c) => StartLeavesAlone(s, h, c, p);
    case _ =>
  }

  /** A wait ends with its own rendezvous only. */
  lemma AwaitGoesOn(s: State, l: Label, p: nat, q: nat)
    requires Safe(s) && Enabled(s, l) && Awaits(s, p, q) && !(l.Rendezvous? && l.p == p)
    ensures Awaits(Next(s, l), p, q)
  {
    assert ReceiverOk(s, p);
    StepLeavesAlone(s, l, p);
    hide Safe, Enabled, Next;
  }

  /** The rendezvous of p is with the process that p waits for, and that one has no signal to handle. */
  lemma WriterIsFree(s: State, p: nat, q: nat, w: nat)
    requires Safe(s) && Pipes(s) && Enabled(s, Rendezvous(p, w)) && Awaits(s, p, q)
    ensures w == q && q < |s.procs| && !Busy(s.procs[q])
  {
    RendezvousMeetsSender(s, p, w);
  }

  /** Nobody is served by a process that has to open a FIFO itself. */
  lemma TiedStays(s: State, l: Label, p: nat, q: nat)
    requires Safe(s) && Pipes(s) && Enabled(s, l) && Awaits(s, p, q) && q < |s.procs| && Offered(s.procs[q])
    ensures Awaits(Next(s, l), p, q)
  {
    if l.Rendezvous? && l.p == p { WriterIsFree(s, p, q, l.writer); }
    hide Safe, Pipes, Awaits, Next;
    AwaitGoesOn(s, l, p, q);
  }

  lemma MemberIsTied(s: State, knot: set<nat>, p: nat) returns (q: nat)
    requires Knot(s, knot) && p in knot
    ensures q in knot && Awaits(s, p, q) && q < |s.procs| && Offered(s.procs[q])
  {
    assert Tied(s, knot, p);
    q :| q in knot && Awaits(s, p, q);
    assert Tied(s, knot, q);
  }

  /** A knot lasts for ever: no step of any process takes anybody out of it. */
  lemma KnotLasts(s: State, l: Label, knot: set<nat>)
    requires Safe(s) && Pipes(s) && Enabled(s, l) && Knot(s, knot)
    ensures Knot(Next(s, l), knot)
  {
    assert WellFormed(s) && knot != {};
    hide Safe, WellFormed, Pipes, Enabled, Next, Awaits, Offered;
    forall p: nat | p in knot
      ensures Tied(Next(s, l), knot, p)
    {
      var q := MemberIsTied(s, knot, p);
      TiedStays(s, l, p, q);
    }
  }

  // ---- How a wait begins ----

  /** Process p raises a signal at a present receiver. */
  predicate Kills(s: State, l: Label, p: nat) {
    && l == HandOver(p) && p < |s.procs| && s.procs[p].pc.Send? && s.procs[p].pc.send.TestState?
    && s.procs[p].pc.to < |s.clients| && s.clients[s.procs[p].pc.to].state
  }

  /** Process q signals its offer of a FIFO to process p. */
  predicate Signals(s: State, l: Label, q: nat, p: nat) {
    Kills(s, l, q) && s.procs[q].pc.request.Offer? && s.clients[s.procs[q].pc.to].pid == p
  }

  lemma KillBegins(s: State, h: nat, p: nat, q: nat)
    requires Safe(s) && Enabled(s, HandOver(h)) && p < |s.procs| && !Offered(s.procs[p])
             && Awaits(DoHandOver(s, h), p, q)
    ensures q == h && Signals(s, HandOver(h), h, p)
  {
    var to := s.procs[h].pc.to;
    if s.procs[h].pc.send.TestState? && s.clients[to].state {
      assert HolderOk(s, h);
      assert OwnedBy(s, to, s.clients[to].pid);
      KillLog(s, h);
    } else {
      NoKillNoOffer(s, h, p);
    }
    hide Safe, DoHandOver;
  }

  lemma NoKillNoOffer(s: State, h: nat, p: nat)
    requires WellFormed(s) && Enabled(s, HandOver(h)) && p < |s.procs|
    requires !(s.procs[h].pc.send.TestState? && s.clients[s.procs[h].pc.to].state)
    ensures p < |DoHandOver(s, h).procs| && Offered(DoHandOver(s, h).procs[p]) == Offered(s.procs[p])
  {
  }

  /** What the signalled process is left with. */
  lemma KillLog(s: State, h: nat)
    requires Safe(s) && Enabled(s, HandOver(h)) && Kills(s, HandOver(h), h)
    ensures var s', to, q := DoHandOver(s, h), s.procs[h].pc.to, s.clients[s.procs[h].pc.to].pid;
            && 1 <= to && q < |s.procs| == |s'.procs| && s'.procs[q].id == to && |s'.clients| == |s.clients|
            && LastEntry(s'.clients[to].log) == Some(Entry(h, s.procs[h].id, s.procs[h].pc.request, Committed(q)))
            && (forall p :: 0 <= p < |s.procs| && p != q ==> Offered(s'.procs[p]) == Offered(s.procs[p]))
            && Offered(s'.procs[q]) == (Offered(s.procs[q]) || s.procs[h].pc.request.Offer?)
  {
    assert HolderOk(s, h);
    assert OwnedBy(s, s.procs[h].pc.to, s.clients[s.procs[h].pc.to].pid);
  }

  /** No other step makes anybody open a FIFO. */
  lemma OfferedWas(s: State, l: Label, p: nat)
    requires WellFormed(s) && Enabled(s, l) && p < |Next(s, l).procs| && Offered(Next(s, l).procs[p]) && !l.HandOver?
    ensures p < |s.procs| && Offered(s.procs[p])
  {
    match l
    case LogIn(h) => assert DoLogIn(s, h).procs == s.procs[h := DoLogIn(s, h).procs[h]];
    case LogOut(h) => assert DoLogOut(s, h).procs == s.procs[h := DoLogOut(s, h).procs[h]];
    case Start(h, c) => assert DoStart(s, h, c).procs[h].pending == s.procs[h].pending
      && DoStart(s, h, c).procs[h].handler == s.procs[h].handler;
    case _ =>
  }

  lemma ServedIsDone(s: State, p: nat, w: nat)
    requires Safe(s) && Enabled(s, Rendezvous(p, w))
    ensures p < |DoRendezvous(s, p, w).procs| && !Offered(DoRendezvous(s, p, w).procs[p])
  {
    assert ReceiverOk(s, p);
  }

  /** A wait is old, or its sender raises the signal in this very step. */
  lemma AwaitWas(s: State, l: Label, p: nat, q: nat)
    requires Safe(s) && Enabled(s, l) && Awaits(Next(s, l), p, q)
    ensures Awaits(s, p, q) || Signals(s, l, q, p)
  {
    assert WellFormed(s);
    if l.Rendezvous? { ServedIsDone(s, l.p, l.writer); }
    if l.HandOver? {
      SameProcs(s, l.p);
      hide Safe, WellFormed, DoHandOver;
      if Offered(s.procs[p]) { OldAwaitWas(s, l, p, q); } else { KillBegins(s, l.p, p, q); }
    } else {
      OfferedWas(s, l, p);
      hide Safe, WellFormed, Enabled, Next;
      OldAwaitWas(s, l, p, q);
    }
  }

  lemma SameProcs(s: State, h: nat)
    requires WellFormed(s) && Enabled(s, HandOver(h))
    ensures |DoHandOver(s, h).procs| == |s.procs|
  {
    var to := s.procs[h].pc.to;
    if s.procs[h].pc.send.TestState? && s.clients[to].state && to > 0 { assert OwnedBy(s, to, s.clients[to].pid); }
  }

  lemma OldAwaitWas(s: State, l: Label, p: nat, q: nat)
    requires Safe(s) && Enabled(s, l) && p < |s.procs| && Offered(s.procs[p]) && !(l.Rendezvous? && l.p == p)
    requires Awaits(Next(s, l), p, q)
    ensures Awaits(s, p, q)
  {
    assert ReceiverOk(s, p);
    StepLeavesAlone(s, l, p);
    hide Safe, Enabled, Next;
  }

  // ---- How a knot is closed ----

  /** Each process of the chain waits for the next one. */
  ghost predicate Chain(s: State, path: seq<nat>) {
    |path| > 0 && forall i :: 0 <= i < |path| - 1 ==> Awaits(s, path[i], path[i + 1])
  }

  /** Process p is process t, or waits for it, itself or through others. */
  ghost predicate WaitsThrough(s: State, p: nat, t: nat) {
    exists path :: Chain(s, path) && path[0] == p && path[|path| - 1] == t
  }

  /** The step signals an offer whose sender waits for the receiver already, or is the receiver. */
  ghost predicate Closes(s: State, l: Label) {
    exists q: nat, t: nat :: Signals(s, l, q, t) && WaitsThrough(s, q, t)
  }

  lemma SignalAwaits(s: State, l: Label, q: nat, t: nat)
    requires Safe(s) && Enabled(s, l) && Signals(s, l, q, t)
    ensures Awaits(Next(s, l), t, q)
  {
    KillLog(s, q);
    hide Safe;
  }

  /** A sender other than the receiver that closes a knot has an offer pending itself. */
  lemma CloserIsOffered(s: State, l: Label, q: nat, t: nat)
    requires Safe(s) && Enabled(s, l) && Signals(s, l, q, t) && WaitsThrough(s, q, t) && q != t
    ensures Usr2 in s.procs[q].pending
  {
    var path :| Chain(s, path) && path[0] == q && path[|path| - 1] == t;
    assert Awaits(s, path[0], path[1]);
    hide Safe;
  }

  lemma ChainIsKnot(s: State, path: seq<nat>)
    requires Chain(s, path) && Awaits(s, path[|path| - 1], path[0])
    ensures Knotted(s)
  {
    var knot := set v | v in path;
    hide Awaits;
    forall p: nat | p in knot
      ensures Tied(s, knot, p)
    {
      var i :| 0 <= i < |path| && path[i] == p;
      var q := if i < |path| - 1 then path[i + 1] else path[0];
      assert q in knot && Awaits(s, p, q);
    }
    assert path[0] in knot;
    assert Knot(s, knot);
  }

  lemma ChainGoesOn(s: State, l: Label, path: seq<nat>)
    requires Safe(s) && Enabled(s, l) && l.HandOver? && Chain(s, path)
    ensures Chain(Next(s, l), path)
  {
    assert WellFormed(s);
    hide Safe, WellFormed, Enabled, Next, Awaits;
    forall i | 0 <= i < |path| - 1
      ensures Awaits(Next(s, l), path[i], path[i + 1])
    {
      AwaitGoesOn(s, l, path[i], path[i + 1]);
    }
  }

  lemma ClosingMakesKnot(s: State, l: Label)
    requires Safe(s) && Enabled(s, l) && Closes(s, l)
    ensures Knotted(Next(s, l))
  {
    var q: nat, t: nat :| Signals(s, l, q, t) && WaitsThrough(s, q, t);
    var path :| Chain(s, path) && path[0] == q && path[|path| - 1] == t;
    hide Safe, Enabled, Next, Awaits, Chain;
    assert |path| > 0 by { ChainIsSome(s, path); }
    SignalAwaits(s, l, q, t);
    ChainGoesOn(s, l, path);
    ChainIsKnot(Next(s, l), path);
  }

  lemma ChainIsSome(s: State, path: seq<nat>)
    requires Chain(s, path)
    ensures |path| > 0
  {
  }

  lemma LongerWait(s: State, p: nat, q: nat, t: nat)
    requires Awaits(s, p, q) && WaitsThrough(s, q, t)
    ensures WaitsThrough(s, p, t)
  {
    var path :| Chain(s, path) && path[0] == q && path[|path| - 1] == t;
    hide Awaits;
    var longer := [p] + path;
    forall i | 0 <= i < |longer| - 1
      ensures Awaits(s, longer[i], longer[i + 1])
    {
      assert longer[i + 1] == path[i] && (i > 0 ==> longer[i] == path[i - 1]);
    }
    assert Chain(s, longer) && longer[0] == p && longer[|longer| - 1] == t;
  }

  lemma WaitsForItself(s: State, t: nat)
    ensures WaitsThrough(s, t, t)
  {
    assert Chain(s, [t]);
  }

  /** If everybody in the set but t waits for somebody in the set, then each leads to t, or some of them are a knot. */
  lemma LeadsOrTied(s: State, many: set<nat>, q: nat, t: nat)
    requires q in many && forall v: nat {:trigger Tied(s, many, v)} :: v in many && v != t ==> Tied(s, many, v)
    ensures WaitsThrough(s, q, t) || Knotted(s)
  {
    hide Awaits, WaitsThrough;
    var rest := set v | v in many && !WaitsThrough(s, v, t);
    WaitsForItself(s, t);
    forall v: nat | v in rest
      ensures Tied(s, rest, v)
    {
      assert Tied(s, many, v);
      var w: nat :| w in many && Awaits(s, v, w);
      if WaitsThrough(s, w, t) { LongerWait(s, v, w, t); }
      assert w in rest;
    }
    if q in rest { assert Knot(s, rest); }
  }

  lemma OldTie(s: State, l: Label, knot: set<nat>, v: nat, t: nat)
    requires Safe(s) && Enabled(s, l) && Tied(Next(s, l), knot, v)
             && (forall q: nat :: Signals(s, l, q, v) ==> v == t) && v != t
    ensures Tied(s, knot, v)
  {
    var w: nat :| w in knot && Awaits(Next(s, l), v, w);
    AwaitWas(s, l, v, w);
    hide Safe, Enabled, Next, Awaits, Signals;
  }

  lemma KnotWasOrCloses(s: State, l: Label, knot: set<nat>)
    requires Safe(s) && Enabled(s, l) && Knot(Next(s, l), knot)
    ensures Closes(s, l) || Knotted(s)
  {
    hide Safe, Enabled, Next, Awaits, Signals, WaitsThrough, Tied;
    if q: nat, t: nat :| Signals(s, l, q, t) && t in knot {
      forall v: nat | v in knot && v != t
        ensures Tied(s, knot, v)
      {
        OneSignal(s, l, q, t);
        OldTie(s, l, knot, v, t);
      }
      var w := SignalledInKnot(s, l, knot, q, t);
      LeadsOrTied(s, knot, q, t);
    } else {
      forall v: nat | v in knot
        ensures Tied(s, knot, v)
      {
        var t: nat := v + 1;
        OldTie(s, l, knot, v, t);
      }
      assert Knot(s, knot);
    }
  }

  lemma OneSignal(s: State, l: Label, q: nat, t: nat)
    requires Signals(s, l, q, t)
    ensures forall r: nat, v: nat :: Signals(s, l, r, v) ==> r == q && v == t
  {
  }

  /** The signalled process waits for the sender only, so the sender is in its knot. */
  lemma SignalledInKnot(s: State, l: Label, knot: set<nat>, q: nat, t: nat) returns (w: nat)
    requires Safe(s) && Enabled(s, l) && Knot(Next(s, l), knot) && Signals(s, l, q, t) && t in knot
    ensures w == q && w in knot
  {
    SignalAwaits(s, l, q, t);
    assert Tied(Next(s, l), knot, t);
    w :| w in knot && Awaits(Next(s, l), t, w);
    hide Safe, Enabled, Next, Signals;
  }

  /**
    A knot is there after a step if and only if there was one before, or the step is the kill
    for an offer whose sender waits for the receiver already or offers to itself.
    */
  lemma KnotBeginsExactly(s: State, l: Label)
    requires Safe(s) && Pipes(s) && Enabled(s, l)
    ensures Knotted(Next(s, l)) <==> Knotted(s) || Closes(s, l)
  {
    assert WellFormed(s);
    hide Safe, WellFormed, Pipes, Enabled, Next, Knot, Closes;
    if Closes(s, l) { ClosingMakesKnot(s, l); }
    if knot :| Knot(s, knot) { KnotLasts(s, l, knot); }
    if knot :| Knot(Next(s, l), knot) { KnotWasOrCloses(s, l, knot); }
  }

  /** A client waits for itself exactly from the step in which it signals its own offer to itself, and then for ever. */
  lemma SelfWaitBegins(s: State, l: Label, p: nat)
    requires Safe(s) && Pipes(s) && Enabled(s, l)
    ensures Awaits(Next(s, l), p, p) <==> Awaits(s, p, p) || Signals(s, l, p, p)
  {
    assert WellFormed(s);
    hide Safe, WellFormed, Pipes, Awaits, Signals, Next, Enabled;
    if Awaits(Next(s, l), p, p) { AwaitWas(s, l, p, p); }
    if Awaits(s, p, p) { SelfStays(s, l, p); }
    if Signals(s, l, p, p) { SignalAwaits(s, l, p, p); }
  }

  lemma SelfStays(s: State, l: Label, p: nat)
    requires Safe(s) && Pipes(s) && Enabled(s, l) && Awaits(s, p, p)
    ensures Awaits(Next(s, l), p, p)
  {
    TiedStays(s, l, p, p);
  }

  // ---- The FIFO counter's lock ----

  /** The lock on the counter of FIFO names is free, or somebody is about to free it. */
  ghost predicate NamesFree(s: State) {
    s.fifoLock > 0 || exists p: nat :: p < |s.procs| && s.procs[p].pc.Naming? && s.procs[p].pc.held
  }

  lemma HandOverKeepsNamer(s: State, h: nat, p: nat)
    requires WellFormed(s) && Enabled(s, HandOver(h)) && p < |s.procs| && s.procs[p].pc.Naming?
    ensures p < |DoHandOver(s, h).procs| && DoHandOver(s, h).procs[p].pc == s.procs[p].pc
  {
    var to := s.procs[h].pc.to;
    assert ProcFormed(s.procs[h], MaxId(s));
    if s.procs[h].pc.send.TestState? && s.clients[to].state && to > 0 { assert OwnedBy(s, to, s.clients[to].pid); }
  }

  lemma StepKeepsNamesFree(s: State, l: Label)
    requires WellFormed(s) && Enabled(s, l) && NamesFree(s)
    ensures NamesFree(Next(s, l))
  {
    var s' := Next(s, l);
    if s.fifoLock == 0 {
      var p: nat :| p < |s.procs| && s.procs[p].pc.Naming? && s.procs[p].pc.held;
      match l
      case HandOver(h) => HandOverKeepsNamer(s, h, p);
      case LogIn(h) => assert DoLogIn(s, h).procs[p].pc == s.procs[p].pc;
      case LogOut(h) => assert DoLogOut(s, h).procs[p].pc == s.procs[p].pc;
      case Name(h) =>
      case _ => assert s'.procs[p].pc == s.procs[p].pc;
    } else if l.Name? {
      assert s'.fifoLock > 0 || (s'.procs[l.p].pc.Naming? && s'.procs[l.p].pc.held);
    } else {
      KeepsFifoLock(s, l);
    }
  }

  lemma KeepsFifoLock(s: State, l: Label)
    requires WellFormed(s) && Enabled(s, l) && !l.Name?
    ensures Next(s, l).fifoLock == s.fifoLock
  {
  }

  // ---- Runs ----

  /** Some earlier step closed a knot. */
  ghost predicate ClosedBefore(states: seq<State>, labels: seq<Label>, k: nat)
    requires k <= |labels| < |states|
  {
    exists i :: 0 <= i < k && Closes(states[i], labels[i])
  }

  lemma {:induction false} RunKnots(n: nat, states: seq<State>, labels: seq<Label>, k: nat)
    requires IsRun(n, states, labels) && FreshIds(states, labels) && k < |states|
    ensures Safe(states[k]) && Pipes(states[k]) && NamesFree(states[k])
  {
    RunPipes(n, states, labels, k);
    if k > 0 {
      RunKnots(n, states, labels, k - 1);
      hide Safe, Pipes, NamesFree, FreshIds;
      assert states[k] == Next(states[k - 1], labels[k - 1]);
      StepKeepsNamesFree(states[k - 1], labels[k - 1]);
    }
  }

  lemma InitNoKnot(n: nat)
    ensures !Knotted(Init(n))
  {
    forall knot: set<nat>
      ensures !Knot(Init(n), knot)
    {
      if p :| p in knot { assert !Tied(Init(n), knot, p); }
    }
  }

  lemma NextKnot(n: nat, states: seq<State>, labels: seq<Label>, k: nat)
    requires IsRun(n, states, labels) && FreshIds(states, labels) && k < |labels|
    ensures Knotted(states[k + 1]) <==> Knotted(states[k]) || Closes(states[k], labels[k])
  {
    RunKnots(n, states, labels, k);
    assert Enabled(states[k], labels[k]) && states[k + 1] == Next(states[k], labels[k]);
    hide IsRun, FreshIds, Safe, Pipes, Enabled, Next, Knot, Closes;
    KnotBeginsExactly(states[k], labels[k]);
  }

  lemma FirstHasNoKnot(n: nat, states: seq<State>, labels: seq<Label>)
    requires IsRun(n, states, labels)
    ensures |states| == |labels| + 1 && !Knotted(states[0])
  {
    InitNoKnot(n);
  }

  /** In every state of every run there is a knot if and only if some earlier step closed one. */
  lemma {:induction false} KnotsExactly(n: nat, states: seq<State>, labels: seq<Label>, k: nat)
    requires IsRun(n, states, labels) && FreshIds(states, labels) && k < |states|
    ensures Knotted(states[k]) <==> ClosedBefore(states, labels, k)
  {
    FirstHasNoKnot(n, states, labels);
    hide IsRun, FreshIds, Knotted, Closes;
    if k > 0 {
      KnotsExactly(n, states, labels, k - 1);
      NextKnot(n, states, labels, k - 1);
      ClosedJustNow(states, labels, k - 1);
      hide ClosedBefore;
    }
  }

  lemma ClosedJustNow(states: seq<State>, labels: seq<Label>, k: nat)
    requires k < |labels| < |states|
    ensures ClosedBefore(states, labels, k + 1) <==> ClosedBefore(states, labels, k) || Closes(states[k], labels[k])
  {
    hide Closes;
  }
}
