/**
  The mailbox hand-over is safe: for every run in which no client is given an id that is
  still in use, each semaphore is 0 or 1 and is 0 exactly while one token for it exists,
  so signals never coalesce, no mailbox is overwritten before it is read, and every
  committed message is handled exactly once and in order.
  */
module HandoffTokens {
  import opened Handoff
  import opened HandoffAdmission
  import opened Options

  predicate Settled(status: Status) {
    status.Finished? || status.Returned?
  }

  /** The lines that the hand-overs of a history put on the socket. */
  function Delivered(log: seq<Entry>): seq<Line> {
    if log == [] then [] else Delivered(log[..|log| - 1]) + DeliveredBy(log[|log| - 1])
  }

  function DeliveredBy(e: Entry): seq<Line> {
    match e.status
    case Handled(to, Written) => [Line(to, ContentOf(e.request))]
    case Finished(to, Written) => [Line(to, ContentOf(e.request))]
    case _ => []
  }

  // ---- Ids ----

  /** Two processes never share an id, and the record of a published process names it. */
  ghost predicate Ids(s: State) {
    && (forall p, q | 0 <= p < |s.procs| && 0 <= q < |s.procs| && HasId(s.procs[p].pc) && HasId(s.procs[q].pc) ::
          s.procs[p].id == s.procs[q].id ==> p == q)
    && (forall p :: 0 <= p < |s.procs| && Published(s.procs[p].pc) ==> Owner(s, p))
  }

  predicate Owner(s: State, p: nat)
    requires p < |s.procs|
  {
    var id := s.procs[p].id;
    id < |s.clients| && s.clients[id].state && s.clients[id].pid == p
  }

  /** The step does not hand out an id that is in use. */
  predicate FreshId(s: State, l: Label) {
    l.LogIn? && l.p < |s.procs| && s.procs[l.p].pc.Login? && s.procs[l.p].pc.login.AskLock2? && s.minId < |s.clients|
    ==> !s.clients[s.minId].state
  }

  // ---- The three ends of a hand-over ----

  predicate HolderOk(s: State, p: nat)
    requires p < |s.procs| && s.procs[p].pc.Send?
  {
    var Send(step, to, r, _) := s.procs[p].pc;
    && 1 <= to < |s.clients|
    && s.clients[to].lock == 0
    && LastEntry(s.clients[to].log) == Some(Entry(p, s.procs[p].id, r, Taken))
    && (step.TestState? ==> s.clients[to].mailbox == ContentOf(r)
                            && (r.Offer? ==> s.clients[to].fromId == s.procs[p].id))
  }

  predicate ReceiverOk(s: State, p: nat)
    requires p < |s.procs|
  {
    var proc := s.procs[p];
    && Published(proc.pc) && 1 <= proc.id < |s.clients|
    && var c := s.clients[proc.id];
       && c.lock == 0
       && match LastEntry(c.log)
          case Some(Entry(_, senderId, r, Committed(q))) =>
            && q == p
            && c.mailbox == ContentOf(r)
            && (r.Offer? ==> c.fromId == senderId)
            && ((proc.pending == {SignalOf(r)} && proc.handler == NoHandler)
                || (proc.pending == {} && proc.handler == Running(SignalOf(r))))
          case Some(Entry(_, _, _, Handled(q, _))) => q == p && proc.pending == {} && proc.handler == Posting
          case _ => false
  }

  /** The newest entry of a record's history says who has the token. */
  predicate TokenOk(s: State, j: nat)
    requires j < |s.clients|
  {
    var c := s.clients[j];
    match LastEntry(c.log)
    case None => c.lock == 1
    case Some(e) =>
      match e.status
      case Taken => c.lock == 0 && e.sender < |s.procs| && Holding(s.procs[e.sender].pc) && s.procs[e.sender].pc.to == j
      case Committed(q) => c.lock == 0 && q < |s.procs| && Busy(s.procs[q]) && s.procs[q].id == j
      case Handled(q, _) => c.lock == 0 && q < |s.procs| && Busy(s.procs[q]) && s.procs[q].id == j
      case _ => c.lock == 1
  }

  ghost predicate HistoryOk(s: State, j: nat)
    requires j < |s.clients|
  {
    var c := s.clients[j];
    && (forall k :: 0 <= k < |c.log| - 1 ==> Settled(c.log[k].status))
    && (forall k :: 0 <= k < |c.log| ==> DroppedOk(s, c.log[k].status))
    && (forall k :: 0 <= k < |c.log| ==> OutcomeOk(c.log[k]))
    && c.screen == Delivered(c.log)
  }

  /** What was handled was discarded, or a text was written and a FIFO opened. */
  predicate OutcomeOk(e: Entry) {
    e.status.Handled? || e.status.Finished? ==>
      e.status.outcome.Discarded? || (e.status.outcome.Written? <==> e.request.Tell?)
  }

  /** A message is discarded only by a process that has stopped. */
  predicate DroppedOk(s: State, status: Status) {
    (status.Handled? || status.Finished?) && status.outcome.Discarded?
    ==> status.to < |s.procs| && s.procs[status.to].stopped
  }

  ghost predicate Tokens(s: State) {
    && (forall p :: 0 <= p < |s.procs| && Holding(s.procs[p].pc) ==> HolderOk(s, p))
    && (forall p :: 0 <= p < |s.procs| && Busy(s.procs[p]) ==> ReceiverOk(s, p))
    && (forall j :: 1 <= j < |s.clients| ==> TokenOk(s, j))
    && (forall j :: 1 <= j < |s.clients| ==> HistoryOk(s, j))
  }

  ghost predicate Safe(s: State) {
    WellFormed(s) && Mutex(s) && Admission(s) && Ids(s) && Tokens(s)
  }

  lemma InitSafe(n: nat)
    requires n >= 1
    ensures Safe(Init(n))
  {
    InitWellFormed(n);
  }

  // ---- Ids are kept ----

  predicate SameIdentity(a: Proc, b: Proc) {
    a.id == b.id && HasId(a.pc) == HasId(b.pc) && Published(a.pc) == Published(b.pc)
  }

  /** Steps that change neither an id nor what is published. */
  lemma OthersKeepIds(s: State, s': State)
    requires Ids(s) && |s'.clients| == |s.clients| && |s.procs| <= |s'.procs|
    requires forall j :: 1 <= j < |s.clients| ==>
               s'.clients[j].state == s.clients[j].state && s'.clients[j].pid == s.clients[j].pid
    requires WellFormed(s)
    requires forall p :: 0 <= p < |s.procs| ==> SameIdentity(s.procs[p], s'.procs[p])
    requires forall p :: |s.procs| <= p < |s'.procs| ==> !HasId(s'.procs[p].pc)
    ensures Ids(s')
  {
    forall p | 0 <= p < |s'.procs| && Published(s'.procs[p].pc)
      ensures Owner(s', p)
    {
      assert Owner(s, p) && ProcFormed(s.procs[p], MaxId(s));
    }
  }

  lemma TakeIdKeepsIds(s: State, p: nat)
    requires WellFormed(s) && Mutex(s) && Ids(s) && Enabled(s, LogIn(p)) && FreshId(s, LogIn(p))
    requires s.procs[p].pc.login.AskLock2?
    ensures Ids(DoLogIn(s, p))
  {
    var s' := DoLogIn(s, p);
    forall q | 0 <= q < |s.procs| && HasId(s.procs[q].pc)
      ensures s.procs[q].id != s.minId
    {
      assert !Critical(s.procs[q].pc);
      assert Owner(s, q);
    }
    forall q | 0 <= q < |s'.procs| && Published(s'.procs[q].pc)
      ensures Owner(s', q)
    {
      assert Owner(s, q);
    }
  }

  lemma PublishKeepsIds(s: State, p: nat)
    requires WellFormed(s) && Ids(s) && Enabled(s, LogIn(p)) && s.procs[p].pc.login.Publish?
    ensures Ids(DoLogIn(s, p))
  {
    var s' := DoLogIn(s, p);
    assert ProcFormed(s.procs[p], MaxId(s));
    forall q | 0 <= q < |s'.procs| && Published(s'.procs[q].pc)
      ensures Owner(s', q)
    {
      if q != p { assert Owner(s, q); }
    }
  }

  lemma DeleteKeepsIds(s: State, p: nat)
    requires WellFormed(s) && Ids(s) && Enabled(s, LogOut(p)) && s.procs[p].pc.Logout? && s.procs[p].pc.logout.Delete?
    ensures Ids(DoLogOut(s, p))
  {
    var s' := DoLogOut(s, p);
    forall q | 0 <= q < |s'.procs| && Published(s'.procs[q].pc)
      ensures Owner(s', q)
    {
      assert Owner(s, q);
    }
  }

  lemma LeaveKeepsIds(s: State, p: nat)
    requires WellFormed(s) && Ids(s) && Enabled(s, LogOut(p)) && s.procs[p].pc.Leave?
    ensures Ids(DoLogOut(s, p))
  {
    var s' := DoLogOut(s, p);
    forall q | 0 <= q < |s'.procs| && Published(s'.procs[q].pc)
      ensures Owner(s', q)
    {
      assert Owner(s, q);
    }
  }

  lemma StepKeepsIds(s: State, l: Label)
    requires WellFormed(s) && Mutex(s) && Ids(s) && Enabled(s, l) && FreshId(s, l)
    ensures Ids(Next(s, l))
  {
    match l
    case LogIn(p) => LogInKeepsIds(s, p);
    case LogOut(p) => LogOutKeepsIds(s, p);
    case Start(p, c) => StartKeepsIds(s, p, c);
    case HandOver(p) => HandOverKeepsIds(s, p);
    case Loop(p) => QuietKeepsIds(s, l);
    case Name(p) => QuietKeepsIds(s, l);
    case Accept(g) => QuietKeepsIds(s, l);
    case ParentWakes =>
    case ParentRechecks =>
    case _ => HandlersKeepIds(s, l);
  }

  lemma LogInKeepsIds(s: State, p: nat)
    requires WellFormed(s) && Mutex(s) && Ids(s) && Enabled(s, LogIn(p)) && FreshId(s, LogIn(p))
    ensures Ids(DoLogIn(s, p))
  {
    if s.procs[p].pc.login.AskLock2? {
      TakeIdKeepsIds(s, p);
    } else if s.procs[p].pc.login.Publish? {
      PublishKeepsIds(s, p);
    } else {
      OthersKeepIds(s, DoLogIn(s, p));
    }
  }

  lemma LogOutKeepsIds(s: State, p: nat)
    requires WellFormed(s) && Ids(s) && Enabled(s, LogOut(p))
    ensures Ids(DoLogOut(s, p))
  {
    if s.procs[p].pc.Leave? {
      LeaveKeepsIds(s, p);
    } else if s.procs[p].pc.logout.Delete? {
      DeleteKeepsIds(s, p);
    } else {
      OthersKeepIds(s, DoLogOut(s, p));
    }
  }

  lemma QuietKeepsIds(s: State, l: Label)
    requires WellFormed(s) && Ids(s) && Enabled(s, l) && (l.Loop? || l.Name? || l.Accept?)
    ensures Ids(Next(s, l))
  {
    OthersKeepIds(s, Next(s, l));
  }

  lemma StartKeepsIds(s: State, p: nat, c: Command)
    requires WellFormed(s) && Ids(s) && Enabled(s, Start(p, c))
    ensures Ids(DoStart(s, p, c))
  {
    OthersKeepIds(s, DoStart(s, p, c));
  }

  lemma HandOverKeepsIds(s: State, p: nat)
    requires WellFormed(s) && Ids(s) && Enabled(s, HandOver(p))
    ensures Ids(DoHandOver(s, p))
  {
    if s.procs[p].pc.send.TestState? && s.clients[s.procs[p].pc.to].state {
      assert OwnedBy(s, s.procs[p].pc.to, s.clients[s.procs[p].pc.to].pid);
    }
    hide Ids;
    OthersKeepIds(s, DoHandOver(s, p));
  }

  lemma HandlersKeepIds(s: State, l: Label)
    requires WellFormed(s) && Ids(s) && Enabled(s, l) && (l.Deliver? || l.Handle? || l.Rendezvous? || l.PostMailbox?)
    ensures Ids(Next(s, l))
  {
    OthersKeepIds(s, Next(s, l));
  }

  // ---- Tokens are kept ----

  /** What the tokens of a process depend on. */
  predicate SameToken(a: Proc, b: Proc) {
    && (a.id == b.id || !(Busy(a) || Holding(a.pc)))
    && a.pending == b.pending && a.handler == b.handler
    && (a.stopped ==> b.stopped)
    && (Busy(a) ==> Published(a.pc) == Published(b.pc))
    && (if Holding(a.pc) then b.pc == a.pc else !Holding(b.pc))
  }

  predicate SameRecord(a: Client, b: Client) {
    a.lock == b.lock && a.mailbox == b.mailbox && a.fromId == b.fromId && a.log == b.log && a.screen == b.screen
  }

  /** Steps that touch no semaphore, mailbox or signal. */
  lemma OthersKeepTokens(s: State, s': State)
    requires WellFormed(s) && Tokens(s)
    requires |s'.clients| == |s.clients| && |s.procs| <= |s'.procs|
    requires forall j :: 1 <= j < |s.clients| ==> SameRecord(s.clients[j], s'.clients[j])
    requires forall p :: 0 <= p < |s.procs| ==> SameToken(s.procs[p], s'.procs[p])
    requires forall p :: |s.procs| <= p < |s'.procs| ==> !Busy(s'.procs[p]) && !Holding(s'.procs[p].pc)
    ensures Tokens(s')
  {
    forall p | 0 <= p < |s'.procs| && Holding(s'.procs[p].pc)
      ensures HolderOk(s', p)
    {
      assert SameToken(s.procs[p], s'.procs[p]) && HolderOk(s, p);
    }
    forall p | 0 <= p < |s'.procs| && Busy(s'.procs[p])
      ensures ReceiverOk(s', p)
    {
      assert SameToken(s.procs[p], s'.procs[p]) && ReceiverOk(s, p);
    }
    forall j | 1 <= j < |s'.clients|
      ensures TokenOk(s', j) && HistoryOk(s', j)
    {
      assert SameRecord(s.clients[j], s'.clients[j]) && TokenOk(s, j) && HistoryOk(s, j);
      forall k | 0 <= k < |s'.clients[j].log|
        ensures DroppedOk(s', s'.clients[j].log[k].status)
      {
        assert DroppedOk(s, s.clients[j].log[k].status);
      }
    }
  }

  /** One entry at most is open, so a record has one holder or one busy receiver, not both. */
  lemma OneToken(s: State, p: nat, j: nat)
    requires Tokens(s) && p < |s.procs| && Holding(s.procs[p].pc) && s.procs[p].pc.to == j
    ensures forall q :: 0 <= q < |s.procs| && q != p && Holding(s.procs[q].pc) ==> s.procs[q].pc.to != j
    ensures forall q :: 0 <= q < |s.procs| && Busy(s.procs[q]) ==> s.procs[q].id != j
  {
    assert HolderOk(s, p);
    forall q | 0 <= q < |s.procs| && q != p && Holding(s.procs[q].pc)
      ensures s.procs[q].pc.to != j
    {
      assert HolderOk(s, q);
    }
    forall q | 0 <= q < |s.procs| && Busy(s.procs[q])
      ensures s.procs[q].id != j
    {
      assert ReceiverOk(s, q);
    }
  }

  lemma OneReceiver(s: State, p: nat)
    requires Tokens(s) && p < |s.procs| && Busy(s.procs[p])
    ensures ReceiverOk(s, p)
    ensures forall q :: 0 <= q < |s.procs| && Holding(s.procs[q].pc) ==> s.procs[q].pc.to != s.procs[p].id
    ensures forall q :: 0 <= q < |s.procs| && q != p && Busy(s.procs[q]) ==> s.procs[q].id != s.procs[p].id
  {
    assert ReceiverOk(s, p);
    forall q | 0 <= q < |s.procs| && Holding(s.procs[q].pc)
      ensures s.procs[q].pc.to != s.procs[p].id
    {
      assert HolderOk(s, q);
    }
    forall q | 0 <= q < |s.procs| && q != p && Busy(s.procs[q])
      ensures s.procs[q].id != s.procs[p].id
    {
      assert ReceiverOk(s, q);
    }
  }

  /** Nobody has a token for a record whose semaphore is free. */
  lemma NoToken(s: State, j: nat)
    requires Tokens(s) && 1 <= j < |s.clients| && s.clients[j].lock > 0
    ensures s.clients[j].lock == 1
    ensures s.clients[j].log == [] || Settled(s.clients[j].log[|s.clients[j].log| - 1].status)
    ensures forall q :: 0 <= q < |s.procs| && Holding(s.procs[q].pc) ==> s.procs[q].pc.to != j
    ensures forall q :: 0 <= q < |s.procs| && Busy(s.procs[q]) ==> s.procs[q].id != j
  {
    assert TokenOk(s, j);
    forall q | 0 <= q < |s.procs| && Holding(s.procs[q].pc)
      ensures s.procs[q].pc.to != j
    {
      assert HolderOk(s, q);
    }
    forall q | 0 <= q < |s.procs| && Busy(s.procs[q])
      ensures s.procs[q].id != j
    {
      assert ReceiverOk(s, q);
    }
  }

  /** Everything outside record j, its holder and its receiver is as before. */
  ghost predicate OnlyRecord(s: State, s': State, j: nat, actors: set<nat>) {
    && |s'.clients| == |s.clients| && |s'.procs| == |s.procs| && 1 <= j < |s.clients|
    && (forall i :: 1 <= i < |s.clients| && i != j ==> SameRecord(s.clients[i], s'.clients[i]))
    && (forall p :: 0 <= p < |s.procs| && p !in actors ==> SameToken(s.procs[p], s'.procs[p]))
    && (forall p :: 0 <= p < |s.procs| && s.procs[p].stopped ==> s'.procs[p].stopped)
    && (forall p :: 0 <= p < |s.procs| && p !in actors && Holding(s.procs[p].pc) ==> s.procs[p].pc.to != j)
    && (forall p :: 0 <= p < |s.procs| && p !in actors && Busy(s.procs[p]) ==> s.procs[p].id != j)
  }

  /** A change confined to record j needs to be checked at record j and its actors only. */
  lemma RecordKeepsTokens(s: State, s': State, j: nat, actors: set<nat>)
    requires WellFormed(s) && Tokens(s) && OnlyRecord(s, s', j, actors)
    requires forall p :: p in actors && p < |s.procs| && Holding(s'.procs[p].pc) ==> HolderOk(s', p)
    requires forall p :: p in actors && p < |s.procs| && Busy(s'.procs[p]) ==> ReceiverOk(s', p)
    // an actor's own tokens for other records survive
    requires forall p :: p in actors && p < |s.procs| && Holding(s.procs[p].pc) && s.procs[p].pc.to != j ==>
               s'.procs[p].pc == s.procs[p].pc
    requires forall p :: p in actors && p < |s.procs| && Busy(s.procs[p]) && s.procs[p].id != j ==>
               Busy(s'.procs[p]) && s'.procs[p].id == s.procs[p].id
    requires TokenOk(s', j) && HistoryOk(s', j)
    ensures Tokens(s')
  {
    forall p | 0 <= p < |s'.procs| && Holding(s'.procs[p].pc)
      ensures HolderOk(s', p)
    {
      if p !in actors { assert SameToken(s.procs[p], s'.procs[p]) && HolderOk(s, p); }
    }
    forall p | 0 <= p < |s'.procs| && Busy(s'.procs[p])
      ensures ReceiverOk(s', p)
    {
      if p !in actors { assert SameToken(s.procs[p], s'.procs[p]) && ReceiverOk(s, p); }
    }
    forall i | 1 <= i < |s'.clients| && i != j
      ensures TokenOk(s', i)
    {
      assert SameRecord(s.clients[i], s'.clients[i]) && TokenOk(s, i);
    }
    forall i | 1 <= i < |s'.clients| && i != j
      ensures HistoryOk(s', i)
    {
      assert SameRecord(s.clients[i], s'.clients[i]) && HistoryOk(s, i);
      forall k | 0 <= k < |s'.clients[i].log|
        ensures DroppedOk(s', s'.clients[i].log[k].status)
      {
        assert DroppedOk(s, s.clients[i].log[k].status);
      }
    }
  }

  // ---- The four steps of a sender ----

  lemma TakeKeepsTokens(s: State, p: nat)
    requires WellFormed(s) && Tokens(s) && Enabled(s, HandOver(p)) && s.procs[p].pc.send.SemWait?
    ensures Tokens(DoTake(s, p))
  {
    var Send(_, j, r, after) := s.procs[p].pc;
    var s' := DoTake(s, p);
    assert j >= 1;
    NoToken(s, j);
    assert HistoryOk(s, j);
    HistoryAppend(s, s', j, Entry(p, s.procs[p].id, r, Taken));
    TakeConfined(s, p);
    TakenToken(s, p);
    hide WellFormed, Tokens, HistoryOk, OnlyRecord, TokenOk;
    RecordKeepsTokens(s, s', j, {p});
  }

  lemma TakenToken(s: State, p: nat)
    requires WellFormed(s) && Tokens(s) && Enabled(s, HandOver(p)) && s.procs[p].pc.send.SemWait?
    ensures HolderOk(DoTake(s, p), p) && TokenOk(DoTake(s, p), s.procs[p].pc.to)
  {
    NoToken(s, s.procs[p].pc.to);
    hide HistoryOk;
  }

  lemma TakeConfined(s: State, p: nat)
    requires WellFormed(s) && Tokens(s) && Enabled(s, HandOver(p)) && s.procs[p].pc.send.SemWait?
    ensures OnlyRecord(s, DoTake(s, p), s.procs[p].pc.to, {p})
  {
    NoToken(s, s.procs[p].pc.to);
  }

  /** Appending an open entry after a settled one. */
  lemma HistoryAppend(s: State, s': State, j: nat, e: Entry)
    requires j < |s.clients| == |s'.clients| && HistoryOk(s, j)
    requires s.clients[j].log == [] || Settled(s.clients[j].log[|s.clients[j].log| - 1].status)
    requires e.status == Taken && s'.clients[j].log == s.clients[j].log + [e]
    requires s'.clients[j].screen == s.clients[j].screen
    requires |s'.procs| == |s.procs| && forall p :: 0 <= p < |s.procs| && s.procs[p].stopped ==> s'.procs[p].stopped
    ensures HistoryOk(s', j)
  {
    var was, now := s.clients[j].log, s'.clients[j].log;
    assert now[..|now| - 1] == was;
    forall k | 0 <= k < |now|
      ensures DroppedOk(s', now[k].status)
    {
      if k < |was| { assert now[k] == was[k] && DroppedOk(s, was[k].status); }
    }
    forall k | 0 <= k < |now| - 1
      ensures Settled(now[k].status)
    {
      assert now[k] == was[k];
    }
  }

  /** Marking the newest entry; its line reaches the screen at the same time or not at all. */
  lemma HistoryMark(s: State, s': State, j: nat, status: Status, lines: seq<Line>)
    requires j < |s.clients| == |s'.clients| && HistoryOk(s, j) && s.clients[j].log != []
    requires s'.clients[j].log == Mark(s.clients[j].log, status)
    requires s'.clients[j].screen == s.clients[j].screen + lines
    requires |s'.procs| == |s.procs| && forall p :: 0 <= p < |s.procs| && s.procs[p].stopped ==> s'.procs[p].stopped
    requires DroppedOk(s', status) && OutcomeOk(s.clients[j].log[|s.clients[j].log| - 1].(status := status))
    requires var e := s.clients[j].log[|s.clients[j].log| - 1];
             DeliveredBy(e.(status := status)) == DeliveredBy(e) + lines
    ensures HistoryOk(s', j)
  {
    var was, now := s.clients[j].log, s'.clients[j].log;
    assert now[..|now| - 1] == was[..|was| - 1];
    forall k | 0 <= k < |now|
      ensures DroppedOk(s', now[k].status)
    {
      if k < |was| - 1 { assert now[k] == was[k] && DroppedOk(s, was[k].status); }
    }
  }

  lemma FillKeepsTokens(s: State, p: nat)
    requires WellFormed(s) && Tokens(s) && Enabled(s, HandOver(p)) && s.procs[p].pc.send.Fill?
    ensures Tokens(DoFill(s, p))
  {
    var s' := DoFill(s, p);
    var j := s.procs[p].pc.to;
    OneToken(s, p, j);
    assert HolderOk(s, p) && TokenOk(s, j) && HistoryOk(s, j);
    forall k | 0 <= k < |s'.clients[j].log|
      ensures DroppedOk(s', s'.clients[j].log[k].status)
    {
      assert DroppedOk(s, s.clients[j].log[k].status);
    }
    RecordKeepsTokens(s, s', j, {p});
  }

  lemma PostBackKeepsTokens(s: State, p: nat)
    requires WellFormed(s) && Tokens(s) && Enabled(s, HandOver(p)) && s.procs[p].pc.send.PostBack?
    ensures Tokens(DoPostBack(s, p))
  {
    var s' := DoPostBack(s, p);
    var j := s.procs[p].pc.to;
    OneToken(s, p, j);
    assert HolderOk(s, p) && TokenOk(s, j) && HistoryOk(s, j);
    HistoryMark(s, s', j, Returned, []);
    RecordKeepsTokens(s, s', j, {p});
  }

  lemma KillKeepsTokens(s: State, p: nat)
    requires WellFormed(s) && Tokens(s) && Enabled(s, HandOver(p)) && s.procs[p].pc.send.TestState?
    ensures Tokens(DoKill(s, p))
  {
    var Send(_, j, r, after) := s.procs[p].pc;
    if s.clients[j].state {
      SignalKeepsTokens(s, p);
    } else {
      assert DoKill(s, p).procs[p].pc == Send(PostBack, j, r, after);
      OthersAfterTest(s, p);
    }
  }

  lemma SignalKeepsTokens(s: State, p: nat)
    requires WellFormed(s) && Tokens(s) && Enabled(s, HandOver(p)) && s.procs[p].pc.send.TestState?
    requires s.clients[s.procs[p].pc.to].state
    ensures Tokens(DoKill(s, p))
  {
    var s' := DoKill(s, p);
    var Send(_, j, r, after) := s.procs[p].pc;
    OneToken(s, p, j);
    assert HolderOk(s, p) && TokenOk(s, j) && HistoryOk(s, j);
    var q := s.clients[j].pid;
    assert OwnedBy(s, j, q);
    assert !Busy(s.procs[q]);
    KillConfined(s, p);
    assert s'.procs[q].pending == {SignalOf(r)};
    assert ReceiverOk(s', q) by {
      assert LastEntry(s'.clients[j].log) == Some(Entry(p, s.procs[p].id, r, Committed(q)));
    }
    HistoryMark(s, s', j, Committed(q), []);
    RecordKeepsTokens(s, s', j, {p, q});
  }

  lemma KillConfined(s: State, p: nat)
    requires WellFormed(s) && Tokens(s) && Enabled(s, HandOver(p)) && s.procs[p].pc.send.TestState?
    requires s.clients[s.procs[p].pc.to].state
    ensures OnlyRecord(s, DoKill(s, p), s.procs[p].pc.to, {p, s.clients[s.procs[p].pc.to].pid})
  {
    OneToken(s, p, s.procs[p].pc.to);
    assert OwnedBy(s, s.procs[p].pc.to, s.clients[s.procs[p].pc.to].pid);
  }

  lemma OthersAfterTest(s: State, p: nat)
    requires WellFormed(s) && Tokens(s) && Enabled(s, HandOver(p)) && s.procs[p].pc.send.TestState?
    requires !s.clients[s.procs[p].pc.to].state
    ensures Tokens(DoKill(s, p))
  {
    var s' := DoKill(s, p);
    var j := s.procs[p].pc.to;
    OneToken(s, p, j);
    assert HolderOk(s, p) && TokenOk(s, j) && HistoryOk(s, j);
    forall k | 0 <= k < |s'.clients[j].log|
      ensures DroppedOk(s', s'.clients[j].log[k].status)
    {
      assert DroppedOk(s, s.clients[j].log[k].status);
    }
    RecordKeepsTokens(s, s', j, {p});
  }

  lemma HandOverKeepsTokens(s: State, p: nat)
    requires WellFormed(s) && Tokens(s) && Enabled(s, HandOver(p))
    ensures Tokens(DoHandOver(s, p))
  {
    match s.procs[p].pc.send
    case SemWait => TakeKeepsTokens(s, p);
    case Fill => FillKeepsTokens(s, p);
    case TestState => KillKeepsTokens(s, p);
    case PostBack => PostBackKeepsTokens(s, p);
  }

  // ---- The steps of a handler ----

  /** A handler works on its own record only. */
  lemma HandlerConfined(s: State, s': State, p: nat, actors: set<nat>)
    requires WellFormed(s) && Tokens(s) && p < |s.procs| && Busy(s.procs[p]) && p in actors
    requires |s'.clients| == |s.clients| && |s'.procs| == |s.procs|
    requires forall i :: 0 <= i < |s.clients| && i != s.procs[p].id ==> s'.clients[i] == s.clients[i]
    requires forall q :: 0 <= q < |s.procs| && q !in actors ==> s'.procs[q] == s.procs[q]
    requires forall q :: 0 <= q < |s.procs| && s.procs[q].stopped ==> s'.procs[q].stopped
    ensures OnlyRecord(s, s', s.procs[p].id, actors)
  {
    OneReceiver(s, p);
  }

  lemma DeliverKeepsTokens(s: State, p: nat, signal: Signal)
    requires WellFormed(s) && Tokens(s) && Enabled(s, Deliver(p, signal))
    ensures Tokens(DoDeliver(s, p, signal))
  {
    var s' := DoDeliver(s, p, signal);
    var j := s.procs[p].id;
    OneReceiver(s, p);
    assert TokenOk(s, j) && HistoryOk(s, j);
    assert s'.procs[p].pending == {};
    forall k | 0 <= k < |s'.clients[j].log|
      ensures DroppedOk(s', s'.clients[j].log[k].status)
    {
      assert DroppedOk(s, s.clients[j].log[k].status);
    }
    assert Holding(s'.procs[p].pc) ==> HolderOk(s', p) by {
      if Holding(s.procs[p].pc) { assert HolderOk(s, p); }
    }
    RecordKeepsTokens(s, s', j, {p});
  }

  lemma HandleKeepsTokens(s: State, p: nat)
    requires WellFormed(s) && Tokens(s) && Enabled(s, Handle(p))
    ensures Tokens(DoHandle(s, p))
  {
    var s' := DoHandle(s, p);
    var j := s.procs[p].id;
    OneReceiver(s, p);
    assert TokenOk(s, j) && HistoryOk(s, j);
    assert Holding(s'.procs[p].pc) ==> HolderOk(s', p) by {
      if Holding(s.procs[p].pc) { assert HolderOk(s, p); }
    }
    var outcome := if s.procs[p].stopped then Discarded else Written;
    HistoryMark(s, s', j, Handled(p, outcome), if s.procs[p].stopped then [] else [Line(p, s.clients[j].mailbox)]);
    HandlerConfined(s, s', p, {p});
    RecordKeepsTokens(s, s', j, {p});
  }

  lemma RendezvousKeepsTokens(s: State, p: nat, w: nat)
    requires WellFormed(s) && Tokens(s) && Enabled(s, Rendezvous(p, w))
    ensures Tokens(DoRendezvous(s, p, w))
  {
    var s' := DoRendezvous(s, p, w);
    var j := s.procs[p].id;
    OneReceiver(s, p);
    assert TokenOk(s, j) && HistoryOk(s, j);
    assert Holding(s'.procs[p].pc) ==> HolderOk(s', p) by {
      if Holding(s.procs[p].pc) { assert HolderOk(s, p); }
    }
    assert s'.clients[j].screen == s.clients[j].screen + [];
    HistoryMark(s, s', j, Handled(p, if s.procs[p].stopped then Discarded else Opened), []);
    HandlerConfined(s, s', p, {p, w});
    assert TokenOk(s', j) && (Busy(s'.procs[p]) ==> ReceiverOk(s', p));
    hide Tokens, HistoryOk, OnlyRecord, TokenOk, ReceiverOk;
    RecordKeepsTokens(s, s', j, {p, w});
  }

  lemma PostKeepsTokens(s: State, p: nat)
    requires WellFormed(s) && Tokens(s) && Enabled(s, PostMailbox(p))
    ensures Tokens(DoPost(s, p))
  {
    var s' := DoPost(s, p);
    var j := s.procs[p].id;
    OneReceiver(s, p);
    assert TokenOk(s, j) && HistoryOk(s, j);
    assert Holding(s'.procs[p].pc) ==> HolderOk(s', p) by {
      if Holding(s.procs[p].pc) { assert HolderOk(s, p); }
    }
    var e := s.clients[j].log[|s.clients[j].log| - 1];
    assert DroppedOk(s, e.status);
    HistoryMark(s, s', j, Finished(p, e.status.outcome), []);
    HandlerConfined(s, s', p, {p});
    assert TokenOk(s', j);
    hide Tokens, HistoryOk, OnlyRecord, TokenOk;
    RecordKeepsTokens(s, s', j, {p});
  }

  // ---- Every other step ----

  lemma LogStepsKeepTokens(s: State, l: Label)
    requires WellFormed(s) && Tokens(s) && Enabled(s, l) && (l.LogIn? || l.LogOut?)
    ensures Tokens(Next(s, l))
  {
    var s' := Next(s, l);
    assert forall q :: 0 <= q < |s.procs| && q != l.p ==> s'.procs[q] == s.procs[q];
    assert SameToken(s.procs[l.p], s'.procs[l.p]);
    OthersKeepTokens(s, s');
  }

  lemma QuietKeepsTokens(s: State, l: Label)
    requires WellFormed(s) && Tokens(s) && Enabled(s, l)
    requires l.Accept? || l.ParentWakes? || l.ParentRechecks? || l.Loop? || l.Name?
    ensures Tokens(Next(s, l))
  {
    OthersKeepTokens(s, Next(s, l));
  }

  lemma StartKeepsTokens(s: State, p: nat, c: Command)
    requires WellFormed(s) && Tokens(s) && Enabled(s, Start(p, c))
    ensures Tokens(DoStart(s, p, c))
  {
    OthersKeepTokens(s, DoStart(s, p, c));
  }

  lemma StepKeepsTokens(s: State, l: Label)
    requires WellFormed(s) && Tokens(s) && Enabled(s, l)
    ensures Tokens(Next(s, l))
  {
    match l
    case HandOver(p) => HandOverKeepsTokens(s, p);
    case Deliver(p, signal) => DeliverKeepsTokens(s, p, signal);
    case Handle(p) => HandleKeepsTokens(s, p);
    case Rendezvous(p, w) => RendezvousKeepsTokens(s, p, w);
    case PostMailbox(p) => PostKeepsTokens(s, p);
    case Start(p, c) => StartKeepsTokens(s, p, c);
    case LogIn(p) => LogStepsKeepTokens(s, l);
    case LogOut(p) => LogStepsKeepTokens(s, l);
    case _ => QuietKeepsTokens(s, l);
  }

  lemma StepSafe(s: State, l: Label)
    requires Safe(s) && Enabled(s, l) && FreshId(s, l)
    ensures Safe(Next(s, l))
  {
    StepWellFormed(s, l);
    StepKeepsAdmission(s, l);
    StepKeepsIds(s, l);
    StepKeepsTokens(s, l);
  }

  /** No step of the run hands out an id that is in use. */
  ghost predicate FreshIds(states: seq<State>, labels: seq<Label>)
    requires |states| == |labels| + 1
  {
    forall k :: 0 <= k < |labels| ==> FreshId(states[k], labels[k])
  }

  lemma {:induction false} RunSafe(n: nat, states: seq<State>, labels: seq<Label>, k: nat)
    requires IsRun(n, states, labels) && FreshIds(states, labels) && k < |states|
    ensures Safe(states[k]) && MaxId(states[k]) == n
  {
    if k == 0 {
      InitSafe(n);
    } else {
      RunSafe(n, states, labels, k - 1);
      StepSafe(states[k - 1], labels[k - 1]);
      StepWellFormed(states[k - 1], labels[k - 1]);
    }
  }

  // ---- What this means for users ----

  /** The processes that hold the semaphore of record j. */
  function Holders(s: State, j: nat): set<nat> {
    set p: nat | p < |s.procs| && Holding(s.procs[p].pc) && s.procs[p].pc.to == j
  }

  /** The processes with id j that have a signal pending or in its handler. */
  function Receivers(s: State, j: nat): set<nat> {
    set p: nat | p < |s.procs| && Busy(s.procs[p]) && s.procs[p].id == j
  }

  /** Signals that process p still has to finish. */
  function Signals(s: State, p: nat): nat
    requires p < |s.procs|
  {
    |s.procs[p].pending| + (if s.procs[p].handler == NoHandler then 0 else 1)
  }

  /**
    In every interleaving there is one token per client: the semaphore's unit, a sender
    between sem_wait and kill or sem_post, or one signal pending or in its handler.
    */
  lemma TokenConservation(n: nat, states: seq<State>, labels: seq<Label>, k: nat, j: nat)
    requires IsRun(n, states, labels) && FreshIds(states, labels) && k < |states|
    requires 1 <= j <= n
    ensures |states[k].clients| == n + 1
    ensures states[k].clients[j].lock + |Holders(states[k], j)| + |Receivers(states[k], j)| == 1
    ensures forall p :: p in Receivers(states[k], j) ==>
              Signals(states[k], p) == 1 && states[k].clients[j].state && states[k].clients[j].pid == p
  {
    var s := states[k];
    RunSafe(n, states, labels, k);
    assert TokenOk(s, j);
    if s.clients[j].lock > 0 {
      NoToken(s, j);
      assert Holders(s, j) == {} && Receivers(s, j) == {};
    } else {
      var e := s.clients[j].log[|s.clients[j].log| - 1];
      if e.status.Taken? {
        OneToken(s, e.sender, j);
        assert Holders(s, j) == {e.sender} && Receivers(s, j) == {};
      } else {
        OneReceiver(s, e.status.to);
        assert Holders(s, j) == {} && Receivers(s, j) == {e.status.to};
        assert Owner(s, e.status.to);
      }
    }
  }

  /**
    When a sender fills a mailbox no earlier message in it is still to be read, and when it
    raises a signal the receiver has none pending and runs no handler: nothing coalesces.
    */
  lemma NothingIsLost(n: nat, states: seq<State>, labels: seq<Label>, k: nat, p: nat)
    requires IsRun(n, states, labels) && FreshIds(states, labels) && k < |labels| && labels[k] == HandOver(p)
    requires p < |states[k].procs| && Holding(states[k].procs[p].pc)
    ensures states[k].procs[p].pc.to < |states[k].clients|
    ensures forall q :: 0 <= q < |states[k].procs| && states[k].procs[q].id == states[k].procs[p].pc.to
              ==> !Busy(states[k].procs[q])
    ensures states[k].procs[p].pc.send.TestState? ==>
              states[k].clients[states[k].procs[p].pc.to].mailbox == ContentOf(states[k].procs[p].pc.request)
  {
    RunSafe(n, states, labels, k);
    OneToken(states[k], p, states[k].procs[p].pc.to);
    assert HolderOk(states[k], p);
  }

  /** How one entry of a history may change in one step. */
  predicate Advances(a: Entry, b: Entry) {
    && a.(status := b.status) == b
    && match a.status
       case Taken => b.status.Taken? || b.status.Returned? || b.status.Committed?
       case Committed(q) => b.status == a.status || (b.status.Handled? && b.status.to == q)
       case Handled(q, o) => b.status == a.status || b.status == Finished(q, o)
       case _ => b == a
  }

  /** A history only grows at its end, and its entries only move forward. */
  ghost predicate Extends(a: seq<Entry>, b: seq<Entry>) {
    |a| <= |b| <= |a| + 1 && (forall k :: 0 <= k < |a| ==> Advances(a[k], b[k]))
      && (|b| > |a| ==> b[|a|].status == Taken)
  }

  lemma MarkExtends(log: seq<Entry>, status: Status)
    requires log != [] && Advances(log[|log| - 1], log[|log| - 1].(status := status))
    requires forall k :: 0 <= k < |log| - 1 ==> Settled(log[k].status)
    ensures Extends(log, Mark(log, status))
  {
  }

  lemma SameExtends(log: seq<Entry>)
    ensures Extends(log, log)
  {
  }

  lemma StepExtends(s: State, l: Label, j: nat)
    requires Safe(s) && Enabled(s, l) && 1 <= j < |s.clients|
    ensures |Next(s, l).clients| == |s.clients|
    ensures Extends(s.clients[j].log, Next(s, l).clients[j].log)
  {
    hide Mutex, Admission, Ids, Tokens, Extends;
    match l
    case HandOver(p) => HandOverExtends(s, p, j);
    case Handle(p) => HandleExtends(s, p, j);
    case Rendezvous(p, w) => RendezvousExtends(s, p, w, j);
    case PostMailbox(p) => PostExtends(s, p, j);
    case LogIn(p) => LogInExtends(s, p, j);
    case LogOut(p) => LogOutExtends(s, p, j);
    case Start(p, c) => StartExtends(s, p, c, j);
    case _ => QuietExtends(s, l, j);
  }

  lemma QuietExtends(s: State, l: Label, j: nat)
    requires Safe(s) && Enabled(s, l) && 1 <= j < |s.clients|
    requires l.Accept? || l.ParentWakes? || l.ParentRechecks? || l.Loop? || l.Name? || l.Deliver?
    ensures |Next(s, l).clients| == |s.clients|
    ensures Extends(s.clients[j].log, Next(s, l).clients[j].log)
  {
    SameExtends(s.clients[j].log);
  }

  lemma LogInExtends(s: State, p: nat, j: nat)
    requires Safe(s) && Enabled(s, LogIn(p)) && 1 <= j < |s.clients|
    ensures |DoLogIn(s, p).clients| == |s.clients|
    ensures Extends(s.clients[j].log, DoLogIn(s, p).clients[j].log)
  {
    SameExtends(s.clients[j].log);
    assert DoLogIn(s, p).clients[j].log == s.clients[j].log;
  }

  lemma LogOutExtends(s: State, p: nat, j: nat)
    requires Safe(s) && Enabled(s, LogOut(p)) && 1 <= j < |s.clients|
    ensures |DoLogOut(s, p).clients| == |s.clients|
    ensures Extends(s.clients[j].log, DoLogOut(s, p).clients[j].log)
  {
    SameExtends(s.clients[j].log);
    assert DoLogOut(s, p).clients[j].log == s.clients[j].log;
  }

  lemma StartExtends(s: State, p: nat, c: Command, j: nat)
    requires Safe(s) && Enabled(s, Start(p, c)) && 1 <= j < |s.clients|
    ensures |DoStart(s, p, c).clients| == |s.clients|
    ensures Extends(s.clients[j].log, DoStart(s, p, c).clients[j].log)
  {
    SameExtends(s.clients[j].log);
    assert DoStart(s, p, c).clients[j].log == s.clients[j].log;
  }

  lemma HandleExtends(s: State, p: nat, j: nat)
    requires Safe(s) && Enabled(s, Handle(p)) && 1 <= j < |s.clients|
    ensures Extends(s.clients[j].log, DoHandle(s, p).clients[j].log)
  {
    OneReceiver(s, p);
    assert HistoryOk(s, s.procs[p].id);
    SameExtends(s.clients[j].log);
    MarkExtends(s.clients[s.procs[p].id].log, Handled(p, if s.procs[p].stopped then Discarded else Written));
  }

  lemma RendezvousExtends(s: State, p: nat, w: nat, j: nat)
    requires Safe(s) && Enabled(s, Rendezvous(p, w)) && 1 <= j < |s.clients|
    ensures Extends(s.clients[j].log, DoRendezvous(s, p, w).clients[j].log)
  {
    OneReceiver(s, p);
    assert HistoryOk(s, s.procs[p].id);
    SameExtends(s.clients[j].log);
    MarkExtends(s.clients[s.procs[p].id].log, Handled(p, if s.procs[p].stopped then Discarded else Opened));
  }

  lemma PostExtends(s: State, p: nat, j: nat)
    requires Safe(s) && Enabled(s, PostMailbox(p)) && 1 <= j < |s.clients|
    ensures Extends(s.clients[j].log, DoPost(s, p).clients[j].log)
  {
    OneReceiver(s, p);
    var log := s.clients[s.procs[p].id].log;
    assert HistoryOk(s, s.procs[p].id);
    SameExtends(s.clients[j].log);
    MarkExtends(log, Finished(p, log[|log| - 1].status.outcome));
  }

  lemma HandOverExtends(s: State, p: nat, j: nat)
    requires Safe(s) && Enabled(s, HandOver(p)) && 1 <= j < |s.clients|
    ensures Extends(s.clients[j].log, DoHandOver(s, p).clients[j].log)
  {
    var to := s.procs[p].pc.to;
    SameExtends(s.clients[j].log);
    match s.procs[p].pc.send
    case SemWait => assert DoTake(s, p).clients[to].log
      == s.clients[to].log + [Entry(p, s.procs[p].id, s.procs[p].pc.request, Taken)];
    case Fill => assert DoFill(s, p).clients[j].log == s.clients[j].log;
    case TestState =>
      assert HolderOk(s, p) && HistoryOk(s, to);
      MarkExtends(s.clients[to].log, Committed(s.clients[to].pid));
    case PostBack =>
      assert HolderOk(s, p) && HistoryOk(s, to);
      MarkExtends(s.clients[to].log, Returned);
  }

  /** The receiver handled the request. */
  predicate WasHandled(status: Status) {
    status.Handled? || status.Finished?
  }

  /**
    Exactly once and in order: in every reachable state the lines that handlers wrote to
    client j's socket are the texts of the messages marked as written, unchanged, in the
    order in which their senders took j's lock; every hand-over but the newest is settled; a
    message that reached its signal was discarded only if its receiver had stopped; and what
    was handled and not discarded is a text that was written or a FIFO that was opened.
    */
  lemma DeliveredExactlyOnce(n: nat, states: seq<State>, labels: seq<Label>, k: nat, j: nat)
    requires IsRun(n, states, labels) && FreshIds(states, labels) && k < |states|
    requires 1 <= j <= n
    ensures |states[k].clients| == n + 1
    ensures var c := states[k].clients[j];
            && c.screen == Delivered(c.log)
            && (forall i :: 0 <= i < |c.log| - 1 ==> Settled(c.log[i].status))
            && (c.lock == 1 ==> forall i :: 0 <= i < |c.log| ==> Settled(c.log[i].status))
    ensures var c := states[k].clients[j];
            forall i :: 0 <= i < |c.log| && WasHandled(c.log[i].status) ==>
              var status := c.log[i].status;
              if status.outcome.Discarded? then status.to < |states[k].procs| && states[k].procs[status.to].stopped
              else status.outcome.Written? <==> c.log[i].request.Tell?
    ensures k < |labels| ==> Extends(states[k].clients[j].log, states[k + 1].clients[j].log)
  {
    RunSafe(n, states, labels, k);
    var s := states[k];
    assert HistoryOk(s, j) && TokenOk(s, j);
    if k < |labels| { StepExtends(s, labels[k], j); }
    var c := s.clients[j];
    forall i | 0 <= i < |c.log| && WasHandled(c.log[i].status)
      ensures c.log[i].status.outcome.Discarded? ==>
                c.log[i].status.to < |s.procs| && s.procs[c.log[i].status.to].stopped
      ensures !c.log[i].status.outcome.Discarded? ==> (c.log[i].status.outcome.Written? <==> c.log[i].request.Tell?)
    {
      assert DroppedOk(s, c.log[i].status) && OutcomeOk(c.log[i]);
    }
  }
}
