/**
  User pipes of the multi-process server: a FIFO whose read end a client stores under a
  sender's id is the one that this sender created for this client, and a sender's unlocked
  test that no such pipe exists stays true until its own offer has been handled.
  */
module HandoffPipes {
  import opened Handoff
  import opened HandoffAdmission
  import opened HandoffTokens

  /** The process is on its way to offer a FIFO. */
  predicate Aiming(pc: Pc) {
    pc.Naming? || pc.OpenWrite? || (pc.Send? && pc.request.Offer?)
  }

  function Aim(pc: Pc): nat
    requires Aiming(pc)
  {
    if pc.Send? then pc.to else pc.target
  }

  predicate Named(pc: Pc) {
    Aiming(pc) && !pc.Naming?
  }

  function FifoOf(pc: Pc): nat
    requires Named(pc)
  {
    if pc.Send? then pc.request.name else pc.name
  }

  /** FIFO `name` was made by the client with id `from` for the client with id `to`. */
  predicate MadeFor(s: State, name: nat, from: nat, to: nat) {
    1 <= name <= |s.created| && s.created[name - 1] == (from, to)
  }

  predicate AimOk(s: State, p: nat)
    requires p < |s.procs| && Aiming(s.procs[p].pc)
  {
    var pc := s.procs[p].pc;
    && Published(pc)
    && 1 <= Aim(pc) < |s.clients|
    && s.procs[p].id !in s.clients[Aim(pc)].userPipe
    && (Named(pc) ==> MadeFor(s, FifoOf(pc), s.procs[p].id, Aim(pc)))
    && (pc.OpenWrite? ==> OfferedBy(s, Aim(pc), p, FifoOf(pc)))
  }

  /** The open hand-over of record j is process p's offer of FIFO `name`. */
  predicate OfferedBy(s: State, j: nat, p: nat, name: nat)
    requires j < |s.clients| && p < |s.procs|
  {
    match LastEntry(s.clients[j].log)
    case Some(Entry(sender, senderId, Offer(offered), Committed(_))) =>
      sender == p && senderId == s.procs[p].id && offered == name
    case _ => false
  }

  predicate OfferOk(s: State, j: nat)
    requires j < |s.clients|
  {
    match LastEntry(s.clients[j].log)
    case Some(Entry(sender, senderId, Offer(name), Committed(_))) =>
      sender < |s.procs| && s.procs[sender].pc == OpenWrite(j, name) && s.procs[sender].id == senderId
    case _ => true
  }

  ghost predicate RowOk(s: State, j: nat)
    requires j < |s.clients|
  {
    forall from :: from in s.clients[j].userPipe ==> MadeFor(s, s.clients[j].userPipe[from], from, j)
  }

  ghost predicate Pipes(s: State) {
    && (forall p :: 0 <= p < |s.procs| && Aiming(s.procs[p].pc) ==> AimOk(s, p))
    && (forall j :: 1 <= j < |s.clients| ==> OfferOk(s, j))
    && (forall j :: 1 <= j < |s.clients| ==> RowOk(s, j))
  }

  lemma InitPipes(n: nat)
    requires n >= 1
    ensures Pipes(Init(n))
  {
  }

  // ---- Steps that offer nothing and open nothing ----

  predicate SameAim(a: Proc, b: Proc) {
    if Aiming(a.pc) then b.pc == a.pc && b.id == a.id else !Aiming(b.pc)
  }

  ghost predicate SmallerRow(a: Client, b: Client) {
    b.log == a.log && forall from :: from in b.userPipe ==> from in a.userPipe && b.userPipe[from] == a.userPipe[from]
  }

  lemma OthersKeepPipes(s: State, s': State)
    requires Pipes(s) && |s'.clients| == |s.clients| && |s.procs| <= |s'.procs| && s'.created == s.created
    requires forall j :: 1 <= j < |s.clients| ==> SmallerRow(s.clients[j], s'.clients[j])
    requires forall p :: 0 <= p < |s.procs| ==> SameAim(s.procs[p], s'.procs[p])
    requires forall p :: |s.procs| <= p < |s'.procs| ==> !Aiming(s'.procs[p].pc)
    ensures Pipes(s')
  {
    forall p | 0 <= p < |s'.procs| && Aiming(s'.procs[p].pc)
      ensures AimOk(s', p)
    {
      assert SameAim(s.procs[p], s'.procs[p]) && AimOk(s, p);
      assert SmallerRow(s.clients[Aim(s.procs[p].pc)], s'.clients[Aim(s.procs[p].pc)]);
    }
    forall j | 1 <= j < |s'.clients|
      ensures OfferOk(s', j) && RowOk(s', j)
    {
      assert SmallerRow(s.clients[j], s'.clients[j]) && OfferOk(s, j) && RowOk(s, j);
      var e := LastEntry(s.clients[j].log);
      if e.Some? && e.value.sender < |s.procs| { assert SameAim(s.procs[e.value.sender], s'.procs[e.value.sender]); }
    }
  }

  lemma LogInKeepsPipes(s: State, p: nat)
    requires WellFormed(s) && Pipes(s) && Enabled(s, LogIn(p))
    ensures Pipes(DoLogIn(s, p))
  {
    var s' := DoLogIn(s, p);
    assert SameAim(s.procs[p], s'.procs[p]);
    OthersKeepPipes(s, s');
  }

  lemma LogOutKeepsPipes(s: State, p: nat)
    requires WellFormed(s) && Pipes(s) && Enabled(s, LogOut(p))
    ensures Pipes(DoLogOut(s, p))
  {
    var s' := DoLogOut(s, p);
    assert SameAim(s.procs[p], s'.procs[p]);
    OthersKeepPipes(s, s');
  }

  lemma StartKeepsPipes(s: State, p: nat, c: Command)
    requires WellFormed(s) && Pipes(s) && Enabled(s, Start(p, c))
    ensures Pipes(DoStart(s, p, c))
  {
    var s' := DoStart(s, p, c);
    if c.PipeTo? {
      PipeToKeepsPipes(s, p, c.id);
    } else {
      OthersKeepPipes(s, s');
    }
  }

  lemma PipeToKeepsPipes(s: State, p: nat, to: nat)
    requires WellFormed(s) && Pipes(s) && Enabled(s, Start(p, PipeTo(to)))
    ensures Pipes(DoStart(s, p, PipeTo(to)))
  {
    var s' := DoStart(s, p, PipeTo(to));
    forall q | 0 <= q < |s'.procs| && Aiming(s'.procs[q].pc)
      ensures AimOk(s', q)
    {
      if q != p || s' == s { assert AimOk(s, q); }
    }
    forall j | 1 <= j < |s'.clients|
      ensures OfferOk(s', j) && RowOk(s', j)
    {
      assert OfferOk(s, j) && RowOk(s, j);
    }
  }

  lemma NameKeepsPipes(s: State, p: nat)
    requires WellFormed(s) && Pipes(s) && Enabled(s, Name(p))
    ensures Pipes(DoName(s, p))
  {
    var s' := DoName(s, p);
    assert |s.created| <= |s'.created| && s'.created[..|s.created|] == s.created;
    forall q | 0 <= q < |s'.procs| && Aiming(s'.procs[q].pc)
      ensures AimOk(s', q)
    {
      assert AimOk(s, q);
    }
    forall j | 1 <= j < |s'.clients|
      ensures OfferOk(s', j) && RowOk(s', j)
    {
      assert OfferOk(s, j) && RowOk(s, j);
    }
  }

  lemma QuietKeepsPipes(s: State, l: Label)
    requires WellFormed(s) && Pipes(s) && Enabled(s, l)
    requires l.Accept? || l.ParentWakes? || l.ParentRechecks? || l.Loop? || l.Deliver?
    ensures Pipes(Next(s, l))
  {
    OthersKeepPipes(s, Next(s, l));
  }

  // ---- Steps on one record's hand-over ----

  /** The newest entry of record j changes; nobody has an offer open there before or after. */
  lemma RecordKeepsPipes(s: State, s': State, j: nat)
    requires Pipes(s) && |s'.clients| == |s.clients| && |s.procs| == |s'.procs| && s'.created == s.created
    requires 1 <= j < |s.clients| && s'.clients[j].userPipe == s.clients[j].userPipe
    requires forall i :: 1 <= i < |s.clients| && i != j ==> SmallerRow(s.clients[i], s'.clients[i])
    requires forall p :: 0 <= p < |s.procs| ==> s'.procs[p].id == s.procs[p].id
    requires forall p :: 0 <= p < |s.procs| && Aiming(s'.procs[p].pc) ==>
               Aiming(s.procs[p].pc) && Published(s'.procs[p].pc) && Aim(s'.procs[p].pc) == Aim(s.procs[p].pc)
               && (Named(s'.procs[p].pc) ==> Named(s.procs[p].pc) && FifoOf(s'.procs[p].pc) == FifoOf(s.procs[p].pc))
               && (s'.procs[p].pc.OpenWrite? ==> s.procs[p].pc == s'.procs[p].pc)
    requires forall p :: 0 <= p < |s.procs| && s.procs[p].pc.OpenWrite? ==> s'.procs[p].pc == s.procs[p].pc
    requires !OpenOffer(s, j) && !OpenOffer(s', j)
    ensures Pipes(s')
  {
    forall p | 0 <= p < |s'.procs| && Aiming(s'.procs[p].pc)
      ensures AimOk(s', p)
    {
      assert AimOk(s, p);
    }
    forall i | 1 <= i < |s'.clients|
      ensures OfferOk(s', i) && RowOk(s', i)
    {
      assert OfferOk(s, i) && RowOk(s, i);
    }
  }

  predicate OpenOffer(s: State, j: nat)
    requires j < |s.clients|
  {
    var e := LastEntry(s.clients[j].log);
    e.Some? && e.value.request.Offer? && e.value.status.Committed?
  }

  lemma SendStepKeepsPipes(s: State, p: nat)
    requires WellFormed(s) && Tokens(s) && Pipes(s) && Enabled(s, HandOver(p)) && !s.procs[p].pc.send.TestState?
    ensures Pipes(DoHandOver(s, p))
  {
    var j := s.procs[p].pc.to;
    if s.procs[p].pc.send.SemWait? {
      NoToken(s, j);
      RecordKeepsPipes(s, DoTake(s, p), j);
    } else {
      assert HolderOk(s, p);
      if s.procs[p].pc.send.Fill? {
        RecordKeepsPipes(s, DoFill(s, p), j);
      } else {
        RecordKeepsPipes(s, DoPostBack(s, p), j);
      }
    }
  }

  lemma OfferKeepsPipes(s: State, p: nat)
    requires WellFormed(s) && Tokens(s) && Pipes(s) && Enabled(s, HandOver(p)) && s.procs[p].pc.send.TestState?
    requires s.clients[s.procs[p].pc.to].state && s.procs[p].pc.request.Offer?
    ensures Pipes(DoKill(s, p))
  {
    var s' := DoKill(s, p);
    var j := s.procs[p].pc.to;
    assert HolderOk(s, p) && OwnedBy(s, j, s.clients[j].pid) && AimOk(s, p);
    hide Tokens;
    forall q | 0 <= q < |s'.procs| && Aiming(s'.procs[q].pc)
      ensures AimOk(s', q)
    {
      assert AimOk(s, q);
    }
    forall i | 1 <= i < |s'.clients|
      ensures OfferOk(s', i) && RowOk(s', i)
    {
      assert OfferOk(s, i) && RowOk(s, i);
    }
  }

  lemma KillKeepsPipes(s: State, p: nat)
    requires WellFormed(s) && Tokens(s) && Pipes(s) && Enabled(s, HandOver(p)) && s.procs[p].pc.send.TestState?
    ensures Pipes(DoKill(s, p))
  {
    var j := s.procs[p].pc.to;
    if s.clients[j].state && s.procs[p].pc.request.Offer? {
      OfferKeepsPipes(s, p);
    } else {
      assert HolderOk(s, p);
      assert s.clients[j].state ==> OwnedBy(s, j, s.clients[j].pid);
      RecordKeepsPipes(s, DoKill(s, p), j);
    }
  }

  lemma HandleKeepsPipes(s: State, p: nat)
    requires WellFormed(s) && Tokens(s) && Pipes(s) && Enabled(s, Handle(p))
    ensures Pipes(DoHandle(s, p))
  {
    OneReceiver(s, p);
    RecordKeepsPipes(s, DoHandle(s, p), s.procs[p].id);
  }

  lemma PostKeepsPipes(s: State, p: nat)
    requires WellFormed(s) && Tokens(s) && Pipes(s) && Enabled(s, PostMailbox(p))
    ensures Pipes(DoPost(s, p))
  {
    OneReceiver(s, p);
    RecordKeepsPipes(s, DoPost(s, p), s.procs[p].id);
  }

  /** The writer that meets the handler is the sender whose offer is in the mailbox. */
  lemma RendezvousMeetsSender(s: State, p: nat, w: nat)
    requires WellFormed(s) && Ids(s) && Tokens(s) && Pipes(s) && Enabled(s, Rendezvous(p, w))
    ensures ReceiverOk(s, p) && AimOk(s, w)
    ensures Aim(s.procs[w].pc) == s.procs[p].id
    ensures OfferedBy(s, s.procs[p].id, w, s.procs[w].pc.name)
    ensures s.clients[s.procs[p].id].fromId == s.procs[w].id
    ensures MadeFor(s, s.procs[w].pc.name, s.procs[w].id, s.procs[p].id)
    ensures s.procs[w].id !in s.clients[s.procs[p].id].userPipe
  {
    var j := s.procs[p].id;
    assert ReceiverOk(s, p);
    assert OfferOk(s, j);
    assert AimOk(s, w);
    var e := s.clients[j].log[|s.clients[j].log| - 1];
    assert s.procs[e.sender].pc == OpenWrite(j, s.procs[w].pc.name);
    assert AimOk(s, e.sender);
  }

  lemma RendezvousKeepsPipes(s: State, p: nat, w: nat)
    requires WellFormed(s) && Ids(s) && Tokens(s) && Pipes(s) && Enabled(s, Rendezvous(p, w))
    ensures Pipes(DoRendezvous(s, p, w))
  {
    hide Tokens, WellFormed;
    var s' := DoRendezvous(s, p, w);
    RendezvousMeetsSender(s, p, w);
    forall q | 0 <= q < |s'.procs| && Aiming(s'.procs[q].pc)
      ensures AimOk(s', q)
    {
      assert AimOk(s, q) && HasId(s.procs[q].pc) && HasId(s.procs[w].pc);
    }
    forall i | 1 <= i < |s'.clients|
      ensures OfferOk(s', i) && RowOk(s', i)
    {
      assert OfferOk(s, i) && RowOk(s, i);
    }
  }

  lemma StepKeepsPipes(s: State, l: Label)
    requires Safe(s) && Pipes(s) && Enabled(s, l)
    ensures Pipes(Next(s, l))
  {
    hide Mutex, Admission, Ids, Tokens, Pipes;
    match l
    case LogIn(p) => LogInKeepsPipes(s, p);
    case LogOut(p) => LogOutKeepsPipes(s, p);
    case Start(p, c) => StartKeepsPipes(s, p, c);
    case Name(p) => NameKeepsPipes(s, p);
    case HandOver(p) => if s.procs[p].pc.send.TestState? { KillKeepsPipes(s, p); } else { SendStepKeepsPipes(s, p); }
    case Handle(p) => HandleKeepsPipes(s, p);
    case Rendezvous(p, w) => RendezvousKeepsPipes(s, p, w);
    case PostMailbox(p) => PostKeepsPipes(s, p);
    case _ => QuietKeepsPipes(s, l);
  }

  lemma {:induction false} RunPipes(n: nat, states: seq<State>, labels: seq<Label>, k: nat)
    requires IsRun(n, states, labels) && FreshIds(states, labels) && k < |states|
    ensures Safe(states[k]) && Pipes(states[k]) && MaxId(states[k]) == n
  {
    RunSafe(n, states, labels, k);
    if k == 0 {
      InitPipes(n);
    } else {
      RunPipes(n, states, labels, k - 1);
      StepKeepsPipes(states[k - 1], labels[k - 1]);
    }
  }

  /**
    Whenever the handler opens a FIFO and stores its read end under `from_id`, the FIFO is
    the one that the sender with this id made for this client in this very hand-over, and
    nothing was stored there before.
    */
  lemma RendezvousIsSafe(n: nat, states: seq<State>, labels: seq<Label>, k: nat, p: nat, w: nat)
    requires IsRun(n, states, labels) && FreshIds(states, labels) && k < |labels| && labels[k] == Rendezvous(p, w)
    ensures p < |states[k].procs| && w < |states[k].procs| && states[k].procs[w].pc.OpenWrite?
    ensures var s, s' := states[k], states[k + 1];
            var from, to, name := s.procs[w].id, s.procs[p].id, s.procs[w].pc.name;
            && to < |s.clients| && to < |s'.clients|
            && OfferedBy(s, to, w, name)
            && MadeFor(s, name, from, to)
            && from !in s.clients[to].userPipe
            && s'.clients[to].userPipe == (if s.procs[p].stopped then s.clients[to].userPipe
                                           else s.clients[to].userPipe[from := name])
  {
    RunPipes(n, states, labels, k);
    RendezvousMeetsSender(states[k], p, w);
  }

  /** Two stored pipes are never the same FIFO. */
  lemma StoredPipesAreDistinct(n: nat, states: seq<State>, labels: seq<Label>, k: nat, i: nat, j: nat, a: nat, b: nat)
    requires IsRun(n, states, labels) && FreshIds(states, labels) && k < |states|
    requires 1 <= i < |states[k].clients| && 1 <= j < |states[k].clients| && (i, a) != (j, b)
    requires a in states[k].clients[i].userPipe && b in states[k].clients[j].userPipe
    ensures states[k].clients[i].userPipe[a] != states[k].clients[j].userPipe[b]
  {
    RunPipes(n, states, labels, k);
    assert RowOk(states[k], i) && RowOk(states[k], j);
  }

  /** The test `user_pipe[id] < 0` that a sender made without a lock still holds when its offer is handled. */
  lemma UnlockedTestStaysTrue(n: nat, states: seq<State>, labels: seq<Label>, k: nat, p: nat)
    requires IsRun(n, states, labels) && FreshIds(states, labels) && k < |states|
    requires p < |states[k].procs| && Aiming(states[k].procs[p].pc)
    ensures Aim(states[k].procs[p].pc) < |states[k].clients|
    ensures states[k].procs[p].id !in states[k].clients[Aim(states[k].procs[p].pc)].userPipe
  {
    RunPipes(n, states, labels, k);
    assert AimOk(states[k], p);
  }
}
