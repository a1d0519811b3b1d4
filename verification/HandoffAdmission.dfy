/**
  Facts about every run of the multi-process server, with no assumption at all: the login
  and logout sections exclude each other, and the number of clients never passes the limit.
  */
module HandoffAdmission {
  import opened Handoff

  /** The sections of login and logout between sem_wait and sem_post on lock2. */
  predicate Critical(pc: Pc) {
    HasId(pc) && (!Published(pc) || pc.Login? || (pc.Logout? && pc.logout.Delete?))
  }

  /** Counted in client_num: between its increment and its decrement. */
  predicate Counted(pc: Pc) {
    Published(pc) || (pc.Login? && pc.login.Publish?) || (pc.Logout? && pc.logout.SubOne?)
  }

  /** A child the parent is still waiting for. */
  predicate Newcomer(pc: Pc) {
    pc.Login? && !pc.login.FreeLock2?
  }

  predicate Uncounted(pc: Pc) {
    pc.Login? && (pc.login.AskLock2? || pc.login.AddOne?)
  }

  ghost predicate Mutex(s: State) {
    && s.lock2 <= 1
    && (forall p, q :: 0 <= p < |s.procs| && 0 <= q < |s.procs| &&
                       Critical(s.procs[p].pc) && Critical(s.procs[q].pc) ==>
          p == q)
    && (s.lock2 == 1 ==> forall p :: 0 <= p < |s.procs| ==> !Critical(s.procs[p].pc))
    && (s.lock2 == 0 ==> exists p :: 0 <= p < |s.procs| && Critical(s.procs[p].pc))
  }

  function CountCounted(procs: seq<Proc>): nat {
    if procs == [] then 0
    else CountCounted(procs[..|procs| - 1]) + (if Counted(procs[|procs| - 1].pc) then 1 else 0)
  }

  /** What the parent may rely on at each point of its loop. */
  ghost predicate Admission(s: State) {
    && s.clientNum == CountCounted(s.procs)
    && (forall p, q :: 0 <= p < |s.procs| && 0 <= q < |s.procs| &&
                       Newcomer(s.procs[p].pc) && Newcomer(s.procs[q].pc) ==>
          p == q)
    && s.loginPosts <= 1
    && s.clientNum <= MaxId(s)
    && (s.parent.Accepting? ==> s.clientNum < MaxId(s))
    && (!s.parent.AwaitLogin? || s.loginPosts == 1 ==> forall p :: 0 <= p < |s.procs| ==> !Newcomer(s.procs[p].pc))
    && (!s.parent.AwaitLogin? ==> s.loginPosts == 0)
    && (forall p :: 0 <= p < |s.procs| && Uncounted(s.procs[p].pc) ==> s.clientNum < MaxId(s))
  }

  // ---- Ids and indices stay in range ----

  lemma InitWellFormed(n: nat)
    requires n >= 1
    ensures WellFormed(Init(n)) && Mutex(Init(n)) && Admission(Init(n)) && MaxId(Init(n)) == n
  {
  }

  /** Changing one process keeps a state well formed if the process stays formed and published. */
  lemma ProcUpdate(s: State, s': State, p: nat)
    requires WellFormed(s) && p < |s.procs| == |s'.procs|
    requires s'.procs == s.procs[p := s'.procs[p]] && 1 <= s'.minId <= MaxId(s)
    requires |s'.clients| == |s.clients| && s'.clients[0].state && s'.clients[0].lock == 0
    requires forall j :: 1 <= j < |s.clients| && s'.clients[j].state ==>
               s.clients[j].state && s'.clients[j].pid == s.clients[j].pid
    requires ProcFormed(s'.procs[p], MaxId(s))
    requires Published(s.procs[p].pc) ==> Published(s'.procs[p].pc) && s'.procs[p].id == s.procs[p].id
    ensures WellFormed(s') && MaxId(s') == MaxId(s)
  {
    forall j | 1 <= j < |s'.clients| && s'.clients[j].state
      ensures OwnedBy(s', j, s'.clients[j].pid)
    {
      assert OwnedBy(s, j, s.clients[j].pid);
    }
  }

  lemma StepWellFormed(s: State, l: Label)
    requires WellFormed(s) && Enabled(s, l)
    ensures WellFormed(Next(s, l)) && MaxId(Next(s, l)) == MaxId(s)
  {
    match l
    case Accept(g) => AcceptWellFormed(s, g);
    case Start(p, c) => StartWellFormed(s, p, c);
    case LogIn(p) => LogInWellFormed(s, p);
    case LogOut(p) => LogOutWellFormed(s, p);
    case Loop(p) => ProcUpdate(s, DoLoop(s, p), p);
    case Name(p) => ProcUpdate(s, DoName(s, p), p);
    case HandOver(p) => HandOverWellFormed(s, p);
    case Deliver(p, signal) => ProcUpdate(s, DoDeliver(s, p, signal), p);
    case Handle(p) => HandleWellFormed(s, p);
    case Rendezvous(p, w) => RendezvousWellFormed(s, p, w);
    case PostMailbox(p) => PostWellFormed(s, p);
    case _ =>
  }

  lemma HandleWellFormed(s: State, p: nat)
    requires WellFormed(s) && Enabled(s, Handle(p))
    ensures WellFormed(DoHandle(s, p)) && MaxId(DoHandle(s, p)) == MaxId(s)
  {
    ProcUpdate(s, DoHandle(s, p), p);
  }

  lemma PostWellFormed(s: State, p: nat)
    requires WellFormed(s) && Enabled(s, PostMailbox(p))
    ensures WellFormed(DoPost(s, p)) && MaxId(DoPost(s, p)) == MaxId(s)
  {
    ProcUpdate(s, DoPost(s, p), p);
  }

  lemma StartWellFormed(s: State, p: nat, c: Command)
    requires WellFormed(s) && Enabled(s, Start(p, c))
    ensures WellFormed(DoStart(s, p, c)) && MaxId(DoStart(s, p, c)) == MaxId(s)
  {
    ProcUpdate(s, DoStart(s, p, c), p);
  }

  lemma RendezvousWellFormed(s: State, p: nat, w: nat)
    requires WellFormed(s) && Enabled(s, Rendezvous(p, w))
    ensures WellFormed(DoRendezvous(s, p, w)) && MaxId(DoRendezvous(s, p, w)) == MaxId(s)
  {
    var first := s.(procs := s.procs[w := s.procs[w].(pc := Idle)]);
    ProcUpdate(s, first, w);
    ProcUpdate(first, DoRendezvous(s, p, w), p);
  }

  lemma AcceptWellFormed(s: State, g: string)
    requires WellFormed(s)
    ensures WellFormed(DoAccept(s, g))
  {
    forall j | 1 <= j < |s.clients| && s.clients[j].state
      ensures OwnedBy(DoAccept(s, g), j, s.clients[j].pid)
    {
      assert OwnedBy(s, j, s.clients[j].pid);
    }
  }

  lemma LogInWellFormed(s: State, p: nat)
    requires WellFormed(s) && Enabled(s, LogIn(p))
    ensures WellFormed(DoLogIn(s, p)) && MaxId(DoLogIn(s, p)) == MaxId(s)
  {
    var s' := DoLogIn(s, p);
    if s.procs[p].pc.login.Publish? {
      forall j | 1 <= j < |s'.clients| && s'.clients[j].state
        ensures OwnedBy(s', j, s'.clients[j].pid)
      {
        if j != s.procs[p].id { assert OwnedBy(s, j, s.clients[j].pid); }
      }
    } else {
      ProcUpdate(s, s', p);
    }
  }

  lemma LogOutWellFormed(s: State, p: nat)
    requires WellFormed(s) && Enabled(s, LogOut(p))
    ensures WellFormed(DoLogOut(s, p)) && MaxId(DoLogOut(s, p)) == MaxId(s)
  {
    var s' := DoLogOut(s, p);
    forall j | 1 <= j < |s'.clients| && s'.clients[j].state
      ensures OwnedBy(s', j, s'.clients[j].pid)
    {
      assert OwnedBy(s, j, s.clients[j].pid);
    }
  }

  lemma HandOverWellFormed(s: State, p: nat)
    requires WellFormed(s) && Enabled(s, HandOver(p))
    ensures WellFormed(DoHandOver(s, p)) && MaxId(DoHandOver(s, p)) == MaxId(s)
  {
    match s.procs[p].pc.send
    case SemWait => ProcUpdate(s, DoTake(s, p), p);
    case Fill => ProcUpdate(s, DoFill(s, p), p);
    case PostBack => ProcUpdate(s, DoPostBack(s, p), p);
    case TestState => KillWellFormed(s, p);
  }

  lemma KillWellFormed(s: State, p: nat)
    requires WellFormed(s) && Enabled(s, HandOver(p)) && s.procs[p].pc.send.TestState?
    ensures WellFormed(DoKill(s, p)) && MaxId(DoKill(s, p)) == MaxId(s)
  {
    var Send(_, to, r, after) := s.procs[p].pc;
    if s.clients[to].state {
      assert OwnedBy(s, to, s.clients[to].pid);
      var sent := SetPc(s, p, AfterSend(after, to, r));
      ProcUpdate(s, sent, p);
      ProcUpdate(sent, DoKill(s, p), s.clients[to].pid);
    } else {
      ProcUpdate(s, DoKill(s, p), p);
    }
  }

  // ---- Counting ----

  lemma CountUpdate(procs: seq<Proc>, p: nat, proc: Proc)
    requires p < |procs|
    ensures CountCounted(procs[p := proc]) ==
            CountCounted(procs) - (if Counted(procs[p].pc) then 1 else 0) + (if Counted(proc.pc) then 1 else 0)
  {
    if p == |procs| - 1 {
      assert procs[p := proc][..p] == procs[..p];
    } else {
      CountUpdate(procs[..|procs| - 1], p, proc);
      assert procs[p := proc][..|procs| - 1] == procs[..|procs| - 1][p := proc];
    }
  }

  lemma CountSame(a: seq<Proc>, b: seq<Proc>)
    requires |a| == |b| && forall p :: 0 <= p < |a| ==> Counted(a[p].pc) == Counted(b[p].pc)
    ensures CountCounted(a) == CountCounted(b)
  {
  }

  // ---- Steps that leave admission alone ----

  /** client_num has been changed but not yet `state`, or the other way round. */
  predicate InGap(pc: Pc) {
    (pc.Login? && pc.login.Publish?) || (pc.Logout? && pc.logout.SubOne?)
  }

  /** Same id, same place with respect to the login and logout sections. */
  predicate SameStage(a: Proc, b: Proc) {
    && a.id == b.id && Critical(a.pc) == Critical(b.pc) && Counted(a.pc) == Counted(b.pc)
    && InGap(a.pc) == InGap(b.pc) && (a.pc.Login? || b.pc.Login? ==> a.pc == b.pc)
  }

  ghost predicate SameStages(s: State, s': State) {
    && |s.procs| == |s'.procs| && |s.clients| == |s'.clients|
    && (s.lock2, s.loginPosts, s.clientNum, s.parent, s.minId)
      == (s'.lock2, s'.loginPosts, s'.clientNum, s'.parent, s'.minId)
    && (forall p :: 0 <= p < |s.procs| ==> SameStage(s.procs[p], s'.procs[p]))
    && (forall k :: 1 <= k < |s.clients| ==> s'.clients[k].state == s.clients[k].state)
  }

  lemma SameStagesKeep(s: State, s': State)
    requires SameStages(s, s') && Mutex(s) && Admission(s)
    ensures Mutex(s') && Admission(s')
  {
    CountSame(s.procs, s'.procs);
    if s.lock2 == 0 {
      var p :| 0 <= p < |s.procs| && Critical(s.procs[p].pc);
      assert SameStage(s.procs[p], s'.procs[p]);
    }
  }

  lemma OtherStepsKeepStages(s: State, l: Label)
    requires WellFormed(s) && Enabled(s, l)
    requires l.Start? || l.Loop? || l.Name? || l.HandOver? || l.Deliver? || l.Handle? || l.Rendezvous? || l.PostMailbox?
    ensures SameStages(s, Next(s, l))
  {
    match l
    case HandOver(p) => HandOverKeepsStages(s, p);
    case Start(p, c) => StartKeepsStages(s, p, c);
    case Loop(p) => LoopKeepsStages(s, p);
    case Name(p) => NameKeepsStages(s, p);
    case _ => HandlersKeepStages(s, l);
  }

  lemma NameKeepsStages(s: State, p: nat)
    requires WellFormed(s) && Enabled(s, Name(p))
    ensures SameStages(s, DoName(s, p))
  {
  }

  lemma HandlersKeepStages(s: State, l: Label)
    requires WellFormed(s) && Enabled(s, l) && (l.Deliver? || l.Handle? || l.Rendezvous? || l.PostMailbox?)
    ensures SameStages(s, Next(s, l))
  {
    assert forall p :: 0 <= p < |s.procs| && !(l.Rendezvous? && p == l.writer) ==>
        Next(s, l).procs[p].pc == s.procs[p].pc;
  }

  lemma LoopKeepsStages(s: State, p: nat)
    requires WellFormed(s) && Enabled(s, Loop(p))
    ensures SameStages(s, DoLoop(s, p))
  {
  }

  lemma StartKeepsStages(s: State, p: nat, c: Command)
    requires WellFormed(s) && Enabled(s, Start(p, c))
    ensures SameStages(s, DoStart(s, p, c))
  {
  }

  lemma HandOverKeepsStages(s: State, p: nat)
    requires WellFormed(s) && Enabled(s, HandOver(p))
    ensures SameStages(s, DoHandOver(s, p))
  {
    if s.procs[p].pc.send.TestState? {
      KillKeepsStages(s, p);
    } else {
      assert DoHandOver(s, p).procs == s.procs[p := DoHandOver(s, p).procs[p]];
    }
  }

  lemma KillKeepsStages(s: State, p: nat)
    requires WellFormed(s) && Enabled(s, HandOver(p)) && s.procs[p].pc.send.TestState?
    ensures SameStages(s, DoKill(s, p))
  {
    var to := s.procs[p].pc.to;
    if s.clients[to].state { assert OwnedBy(s, to, s.clients[to].pid); }
  }

  // ---- Login, logout and the parent ----

  lemma LogInKeepsMutex(s: State, p: nat)
    requires WellFormed(s) && Enabled(s, LogIn(p)) && Mutex(s)
    ensures Mutex(DoLogIn(s, p))
  {
    var s' := DoLogIn(s, p);
    assert s'.procs == s.procs[p := s'.procs[p]];
    if s'.lock2 == 0 { assert Critical(s'.procs[p].pc); }
  }

  lemma LogInKeepsAdmission(s: State, p: nat)
    requires WellFormed(s) && Enabled(s, LogIn(p)) && Admission(s)
    ensures Admission(DoLogIn(s, p))
  {
    var s' := DoLogIn(s, p);
    assert s'.procs == s.procs[p := s'.procs[p]];
    CountUpdate(s.procs, p, s'.procs[p]);
  }

  lemma LogOutKeepsMutex(s: State, p: nat)
    requires WellFormed(s) && Enabled(s, LogOut(p)) && Mutex(s)
    ensures Mutex(DoLogOut(s, p))
  {
    var s' := DoLogOut(s, p);
    assert s'.procs == s.procs[p := s'.procs[p]];
    if s'.lock2 == 0 { assert Critical(s'.procs[p].pc); }
  }

  lemma LogOutKeepsAdmission(s: State, p: nat)
    requires WellFormed(s) && Enabled(s, LogOut(p)) && Admission(s)
    ensures Admission(DoLogOut(s, p))
  {
    var s' := DoLogOut(s, p);
    assert s'.procs == s.procs[p := s'.procs[p]];
    CountUpdate(s.procs, p, s'.procs[p]);
  }

  lemma AcceptKeeps(s: State, g: string)
    requires WellFormed(s) && Enabled(s, Accept(g)) && Mutex(s) && Admission(s)
    ensures Mutex(DoAccept(s, g)) && Admission(DoAccept(s, g))
  {
    var s' := DoAccept(s, g);
    assert s'.procs[..|s.procs|] == s.procs;
    assert !Critical(s'.procs[|s.procs|].pc);
    if s.lock2 == 0 {
      var p :| 0 <= p < |s.procs| && Critical(s.procs[p].pc);
      assert Critical(s'.procs[p].pc);
    }
  }

  lemma StepKeepsAdmission(s: State, l: Label)
    requires WellFormed(s) && Enabled(s, l) && Mutex(s) && Admission(s)
    ensures Mutex(Next(s, l)) && Admission(Next(s, l))
  {
    match l
    case Accept(g) => AcceptKeeps(s, g);
    case LogIn(p) => LogInKeepsMutex(s, p); LogInKeepsAdmission(s, p);
    case LogOut(p) => LogOutKeepsMutex(s, p); LogOutKeepsAdmission(s, p);
    case ParentWakes =>
    case ParentRechecks =>
    case _ => OtherStepKeepsAdmission(s, l);
  }

  lemma OtherStepKeepsAdmission(s: State, l: Label)
    requires WellFormed(s) && Enabled(s, l) && Mutex(s) && Admission(s)
    requires l.Start? || l.Loop? || l.Name? || l.HandOver? || l.Deliver? || l.Handle? || l.Rendezvous? || l.PostMailbox?
    ensures Mutex(Next(s, l)) && Admission(Next(s, l))
  {
    OtherStepsKeepStages(s, l);
    SameStagesKeep(s, Next(s, l));
  }

  /**
    In every run, with no assumption on who logs in or out when: at most one process is in
    a login or logout section, and client_num is the number of processes between their
    increment and their decrement and stays within 0 and the limit.
    */
  lemma {:induction false} AdmissionHolds(n: nat, states: seq<State>, labels: seq<Label>, k: nat)
    requires IsRun(n, states, labels) && k < |states|
    ensures WellFormed(states[k]) && MaxId(states[k]) == n
    ensures Mutex(states[k]) && Admission(states[k])
    ensures 0 <= states[k].clientNum == CountCounted(states[k].procs) <= n
  {
    if k == 0 {
      InitWellFormed(n);
    } else {
      AdmissionHolds(n, states, labels, k - 1);
      StepWellFormed(states[k - 1], labels[k - 1]);
      StepKeepsAdmission(states[k - 1], labels[k - 1]);
    }
  }
}
