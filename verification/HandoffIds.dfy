/**
  Who gets which id in the multi-process server: in runs that never fill the table the hint
  `min_id` is always the least free id, so no id is handed out twice, and whenever `lock2`
  is free `client_num` is the number of ids that are in use.
  */
module HandoffIds {
  import opened Handoff
  import opened HandoffAdmission
  import opened HandoffTokens
  import opened Options

  /** Number of ids 1.. below `upto` that are in use. */
  function InUse(clients: seq<Client>, upto: nat): nat
    requires upto <= |clients|
  {
    if upto <= 1 then 0 else InUse(clients, upto - 1) + (if clients[upto - 1].state then 1 else 0)
  }

  ghost predicate Population(s: State) {
    && ((forall p :: 0 <= p < |s.procs| ==> !InGap(s.procs[p].pc)) ==> s.clientNum == InUse(s.clients, |s.clients|))
    && (forall p :: 0 <= p < |s.procs| && InGap(s.procs[p].pc) ==> s.clientNum == InUse(s.clients, |s.clients|) + 1)
  }

  /** The process is entering under the id that the hint still names. */
  predicate Entering(pc: Pc) {
    pc.Login? && (pc.login.AddOne? || pc.login.Publish? || pc.login.Rescan?)
  }

  predicate Owing(proc: Proc, k: nat) {
    proc.pc.Logout? && proc.pc.logout.SubOne? && proc.id == k
  }

  /** No free id lies below the hint, and the hint is free outside a login. */
  ghost predicate HintOk(s: State) {
    && 1 <= s.minId < |s.clients|
    && (forall p :: 0 <= p < |s.procs| && Entering(s.procs[p].pc) ==> s.procs[p].id == s.minId)
    && (forall k :: 1 <= k < s.minId && !s.clients[k].state ==> exists p :: 0 <= p < |s.procs| && Owing(s.procs[p], k))
    && (s.clients[s.minId].state ==>
          exists p :: 0 <= p < |s.procs| && s.procs[p].pc.Login? && s.procs[p].pc.login.Rescan?)
  }

  ghost predicate HasRoom(s: State) {
    exists k :: 1 <= k < |s.clients| && !s.clients[k].state
  }

  // ---- Counting ----

  lemma InUseUpdate(clients: seq<Client>, j: nat, c: Client, upto: nat)
    requires 1 <= j < upto <= |clients|
    ensures InUse(clients[j := c], upto) ==
            InUse(clients, upto) - (if clients[j].state then 1 else 0) + (if c.state then 1 else 0)
  {
    if upto - 1 == j {
      InUseSame(clients, clients[j := c], j);
    } else {
      InUseUpdate(clients, j, c, upto - 1);
    }
  }

  lemma InUseSame(a: seq<Client>, b: seq<Client>, upto: nat)
    requires upto <= |a| == |b| && forall k :: 1 <= k < upto ==> a[k].state == b[k].state
    ensures InUse(a, upto) == InUse(b, upto)
  {
  }

  lemma StagesKeepPopulation(s: State, s': State)
    requires Population(s) && SameStages(s, s')
    ensures Population(s')
  {
    InUseSame(s.clients, s'.clients, |s.clients|);
    assert forall p :: 0 <= p < |s.procs| ==> SameStage(s.procs[p], s'.procs[p]);
  }

  lemma PublishKeepsPopulation(s: State, p: nat)
    requires WellFormed(s) && Mutex(s) && Ids(s) && Population(s) && Enabled(s, LogIn(p))
             && s.procs[p].pc.login.Publish?
    ensures Population(DoLogIn(s, p))
  {
    var s' := DoLogIn(s, p);
    var id := s.procs[p].id;
    assert s.clients[id].state ==> OwnedBy(s, id, s.clients[id].pid);
    InUseUpdate(s.clients, id, s'.clients[id], |s.clients|);
    assert forall q :: 0 <= q < |s.procs| && q != p ==> !Critical(s.procs[q].pc);
  }

  lemma DeleteKeepsPopulation(s: State, p: nat)
    requires WellFormed(s) && Mutex(s) && Ids(s) && Population(s) && Enabled(s, LogOut(p)) && s.procs[p].pc.Logout?
             && s.procs[p].pc.logout.Delete?
    ensures Population(DoLogOut(s, p))
  {
    var s' := DoLogOut(s, p);
    var id := s.procs[p].id;
    assert Owner(s, p);
    InUseUpdate(s.clients, id, s'.clients[id], |s.clients|);
    InUseSame(s.clients[id := s'.clients[id]], s'.clients, |s.clients|);
    assert forall q :: 0 <= q < |s.procs| && q != p ==> !Critical(s.procs[q].pc);
    assert InGap(s'.procs[p].pc) && !InGap(s.procs[p].pc);
  }

  lemma CountStepsKeepPopulation(s: State, s': State, p: nat)
    requires Mutex(s) && Population(s) && p < |s.procs| == |s'.procs|
    requires s'.procs == s.procs[p := s'.procs[p]] && s'.clients == s.clients
    requires s'.clientNum - s.clientNum == (if InGap(s'.procs[p].pc) then 1 else 0)
             - (if InGap(s.procs[p].pc) then 1 else 0)
    requires InGap(s'.procs[p].pc) || InGap(s.procs[p].pc) ==> Critical(s.procs[p].pc)
    ensures Population(s')
  {
    assert forall q :: 0 <= q < |s.procs| && InGap(s.procs[q].pc) ==> Critical(s.procs[q].pc);
    if InGap(s.procs[p].pc) || InGap(s'.procs[p].pc) {
      assert forall q :: 0 <= q < |s.procs| && q != p ==> !InGap(s.procs[q].pc);
      assert InGap(s.procs[p].pc) || forall q :: 0 <= q < |s.procs| ==> !InGap(s.procs[q].pc);
    } else {
      assert forall q :: 0 <= q < |s.procs| ==> InGap(s.procs[q].pc) == InGap(s'.procs[q].pc);
    }
  }

  lemma AcceptKeepsPopulation(s: State, g: string)
    requires WellFormed(s) && Population(s)
    ensures Population(DoAccept(s, g))
  {
    var s' := DoAccept(s, g);
    assert forall q :: 0 <= q < |s.procs| ==> s'.procs[q] == s.procs[q];
    if p :| 0 <= p < |s.procs| && InGap(s.procs[p].pc) {
      assert InGap(s'.procs[p].pc);
    }
  }

  lemma StepKeepsPopulation(s: State, l: Label)
    requires Safe(s) && Population(s) && Enabled(s, l)
    ensures Population(Next(s, l))
  {
    hide Tokens, Population, Mutex, Admission, Ids;
    match l
    case LogIn(p) => LogInKeepsPopulation(s, p);
    case LogOut(p) => LogOutKeepsPopulation(s, p);
    case Accept(g) => AcceptKeepsPopulation(s, g);
    case ParentWakes => ParentKeepsPopulation(s, l);
    case ParentRechecks => ParentKeepsPopulation(s, l);
    case _ => OtherStepKeepsPopulation(s, l);
  }

  lemma ParentKeepsPopulation(s: State, l: Label)
    requires WellFormed(s) && Population(s) && Enabled(s, l) && (l.ParentWakes? || l.ParentRechecks?)
    ensures Population(Next(s, l))
  {
  }

  lemma LogInKeepsPopulation(s: State, p: nat)
    requires WellFormed(s) && Mutex(s) && Ids(s) && Population(s) && Enabled(s, LogIn(p))
    ensures Population(DoLogIn(s, p))
  {
    if s.procs[p].pc.login.Publish? {
      PublishKeepsPopulation(s, p);
    } else {
      CountStepsKeepPopulation(s, DoLogIn(s, p), p);
    }
  }

  lemma LogOutKeepsPopulation(s: State, p: nat)
    requires WellFormed(s) && Mutex(s) && Ids(s) && Population(s) && Enabled(s, LogOut(p))
    ensures Population(DoLogOut(s, p))
  {
    if s.procs[p].pc.Logout? && s.procs[p].pc.logout.Delete? {
      DeleteKeepsPopulation(s, p);
    } else {
      CountStepsKeepPopulation(s, DoLogOut(s, p), p);
    }
  }

  lemma OtherStepKeepsPopulation(s: State, l: Label)
    requires WellFormed(s) && Population(s) && Enabled(s, l)
    requires l.Start? || l.Loop? || l.Name? || l.HandOver? || l.Deliver? || l.Handle? || l.Rendezvous? || l.PostMailbox?
    ensures Population(Next(s, l))
  {
    OtherStepsKeepStages(s, l);
    StagesKeepPopulation(s, Next(s, l));
  }

  // ---- The hint ----

  /** An unpublished process's id is not in use. */
  lemma UnpublishedIsFree(s: State, p: nat)
    requires WellFormed(s) && Ids(s) && p < |s.procs| && HasId(s.procs[p].pc) && !Published(s.procs[p].pc)
    ensures 1 <= s.procs[p].id < |s.clients| && !s.clients[s.procs[p].id].state
  {
    var id := s.procs[p].id;
    assert ProcFormed(s.procs[p], MaxId(s));
    assert s.clients[id].state ==> OwnedBy(s, id, s.clients[id].pid);
  }

  lemma StagesKeepHint(s: State, s': State)
    requires HintOk(s) && SameStages(s, s')
    ensures HintOk(s')
  {
    forall k | 1 <= k < s'.minId && !s'.clients[k].state
      ensures exists p :: 0 <= p < |s'.procs| && Owing(s'.procs[p], k)
    {
      var p :| 0 <= p < |s.procs| && Owing(s.procs[p], k);
      assert SameStage(s.procs[p], s'.procs[p]);
      assert Owing(s'.procs[p], k);
    }
    if s'.clients[s'.minId].state {
      var p :| 0 <= p < |s.procs| && s.procs[p].pc.Login? && s.procs[p].pc.login.Rescan?;
      assert SameStage(s.procs[p], s'.procs[p]);
    }
    forall p | 0 <= p < |s'.procs| && Entering(s'.procs[p].pc)
      ensures s'.procs[p].id == s'.minId
    {
      assert SameStage(s.procs[p], s'.procs[p]);
    }
  }

  /** Inside a login or logout section nobody else is in one. */
  lemma Alone(s: State, p: nat)
    requires Mutex(s) && p < |s.procs|
    requires Critical(s.procs[p].pc) || s.lock2 > 0
    ensures forall q :: 0 <= q < |s.procs| && q != p ==>
              !Entering(s.procs[q].pc) && !(s.procs[q].pc.Logout? && s.procs[q].pc.logout.SubOne?)
              && !(s.procs[q].pc.Login? && s.procs[q].pc.login.Rescan?)
  {
    forall q | 0 <= q < |s.procs| && q != p
      ensures !Critical(s.procs[q].pc)
    {
    }
  }

  lemma LogInKeepsHint(s: State, p: nat)
    requires WellFormed(s) && Mutex(s) && HintOk(s) && HasRoom(s) && Enabled(s, LogIn(p))
    ensures HintOk(DoLogIn(s, p))
  {
    var s' := DoLogIn(s, p);
    Alone(s, p);
    assert forall q :: 0 <= q < |s.procs| && q != p ==> s'.procs[q] == s.procs[q];
    assert forall k :: 1 <= k < s.minId ==> s.clients[k].state;
    assert s.procs[p].pc.login.Publish? ==> s'.procs[p].pc.login.Rescan?;
  }

  lemma DeleteKeepsHint(s: State, p: nat)
    requires WellFormed(s) && Mutex(s) && HintOk(s) && Enabled(s, LogOut(p))
    requires s.procs[p].pc.Logout? && s.procs[p].pc.logout.Delete?
    ensures HintOk(DoLogOut(s, p))
  {
    var s' := DoLogOut(s, p);
    Alone(s, p);
    assert forall q :: 0 <= q < |s.procs| && q != p ==> s'.procs[q] == s.procs[q];
    assert forall k :: 1 <= k < s.minId ==> s.clients[k].state;
    assert Owing(s'.procs[p], s.procs[p].id);
  }

  lemma SubOneKeepsHint(s: State, p: nat)
    requires WellFormed(s) && Mutex(s) && Ids(s) && HintOk(s) && Enabled(s, LogOut(p))
    requires s.procs[p].pc.Logout? && s.procs[p].pc.logout.SubOne?
    ensures HintOk(DoLogOut(s, p))
  {
    var s' := DoLogOut(s, p);
    Alone(s, p);
    UnpublishedIsFree(s, p);
    assert forall q :: 0 <= q < |s.procs| && q != p ==> s'.procs[q] == s.procs[q];
  }

  lemma LockStepsKeepHint(s: State, p: nat)
    requires WellFormed(s) && Mutex(s) && HintOk(s) && Enabled(s, LogOut(p))
    requires s.procs[p].pc.Leave? || s.procs[p].pc.logout.AskAgain?
    ensures HintOk(DoLogOut(s, p))
  {
    var s' := DoLogOut(s, p);
    Alone(s, p);
    assert forall q :: 0 <= q < |s.procs| && q != p ==> s'.procs[q] == s.procs[q];
    assert forall k :: 1 <= k < s.minId ==> s.clients[k].state;
  }

  lemma LogOutKeepsHint(s: State, p: nat)
    requires WellFormed(s) && Mutex(s) && Ids(s) && HintOk(s) && Enabled(s, LogOut(p))
    ensures HintOk(DoLogOut(s, p))
  {
    if s.procs[p].pc.Logout? && s.procs[p].pc.logout.Delete? {
      DeleteKeepsHint(s, p);
    } else if s.procs[p].pc.Logout? && s.procs[p].pc.logout.SubOne? {
      SubOneKeepsHint(s, p);
    } else {
      LockStepsKeepHint(s, p);
    }
  }

  lemma AcceptKeepsHint(s: State, g: string)
    requires HintOk(s)
    ensures HintOk(DoAccept(s, g))
  {
    var s' := DoAccept(s, g);
    assert forall q :: 0 <= q < |s.procs| ==> s'.procs[q] == s.procs[q];
    forall k | 1 <= k < s'.minId && !s'.clients[k].state
      ensures exists p :: 0 <= p < |s'.procs| && Owing(s'.procs[p], k)
    {
      var p :| 0 <= p < |s.procs| && Owing(s.procs[p], k);
      assert Owing(s'.procs[p], k);
    }
    if s'.clients[s'.minId].state {
      var p :| 0 <= p < |s.procs| && s.procs[p].pc.Login? && s.procs[p].pc.login.Rescan?;
      assert s'.procs[p].pc.Login?;
    }
  }

  lemma StepKeepsHint(s: State, l: Label)
    requires WellFormed(s) && Mutex(s) && Ids(s) && HintOk(s) && HasRoom(s) && Enabled(s, l)
    ensures HintOk(Next(s, l))
  {
    match l
    case LogIn(p) => LogInKeepsHint(s, p);
    case LogOut(p) => LogOutKeepsHint(s, p);
    case Accept(g) => AcceptKeepsHint(s, g);
    case ParentWakes => assert SameHintParts(s, Next(s, l));
    case ParentRechecks => assert SameHintParts(s, Next(s, l));
    case _ =>
      OtherStepsKeepStages(s, l);
      StagesKeepHint(s, Next(s, l));
  }

  predicate SameHintParts(s: State, s': State) {
    s'.procs == s.procs && s'.clients == s.clients && s'.minId == s.minId
  }

  /** The next id handed out is free. */
  lemma HintGivesFreshId(s: State, l: Label)
    requires WellFormed(s) && Mutex(s) && HintOk(s) && Enabled(s, l)
    ensures FreshId(s, l)
  {
    if l.LogIn? && s.procs[l.p].pc.login.AskLock2? { Alone(s, l.p); }
  }

  /** Every state of the run has a free id. */
  ghost predicate NeverFull(states: seq<State>) {
    forall k :: 0 <= k < |states| ==> HasRoom(states[k])
  }

  lemma {:induction false} RoomyRun(n: nat, states: seq<State>, labels: seq<Label>, k: nat)
    requires IsRun(n, states, labels) && NeverFull(states) && k < |states|
    ensures Safe(states[k]) && HintOk(states[k]) && MaxId(states[k]) == n
    ensures k < |labels| ==> FreshId(states[k], labels[k])
  {
    if k == 0 {
      InitSafe(n);
    } else {
      RoomyRun(n, states, labels, k - 1);
      StepSafe(states[k - 1], labels[k - 1]);
      StepWellFormed(states[k - 1], labels[k - 1]);
      StepKeepsHint(states[k - 1], labels[k - 1]);
    }
    if k < |labels| { HintGivesFreshId(states[k], labels[k]); }
  }

  /**
    If an id stays free throughout a run, then no id is ever handed out while it is in use,
    and whenever lock2 is free the hint is the least free id.
    */
  lemma NeverFullGivesFreshIds(n: nat, states: seq<State>, labels: seq<Label>)
    requires IsRun(n, states, labels) && NeverFull(states)
    ensures FreshIds(states, labels)
    ensures forall k :: 0 <= k < |states| && states[k].lock2 > 0 ==>
              LeastFreeFrom(states[k].clients, 1) == Some(states[k].minId)
  {
    assert |states| == |labels| + 1;
    hide IsRun, Safe, HintOk, FreshId;
    forall k | 0 <= k < |labels|
      ensures FreshId(states[k], labels[k])
    {
      RoomyRun(n, states, labels, k);
    }
    forall k | 0 <= k < |states| && states[k].lock2 > 0
      ensures LeastFreeFrom(states[k].clients, 1) == Some(states[k].minId)
    {
      RoomyRun(n, states, labels, k);
      HintIsLeast(states[k]);
    }
  }

  lemma HintIsLeast(s: State)
    requires Safe(s) && HintOk(s) && HasRoom(s) && s.lock2 > 0
    ensures LeastFreeFrom(s.clients, 1) == Some(s.minId)
  {
    assert forall p :: 0 <= p < |s.procs| ==> !Critical(s.procs[p].pc);
    assert !s.clients[s.minId].state;
  }

  lemma {:induction false} PopulationHolds(n: nat, states: seq<State>, labels: seq<Label>, k: nat)
    requires IsRun(n, states, labels) && FreshIds(states, labels) && k < |states|
    ensures Population(states[k])
  {
    if k == 0 {
      InUseInit(n, n + 1);
    } else {
      PopulationHolds(n, states, labels, k - 1);
      RunSafe(n, states, labels, k - 1);
      StepKeepsPopulation(states[k - 1], labels[k - 1]);
    }
  }

  lemma InUseInit(n: nat, upto: nat)
    requires upto <= n + 1
    ensures InUse(Init(n).clients, upto) == 0
  {
  }

  /**
    Whenever lock2 is free, client_num is the number of ids whose state is 1, and these
    ids belong to different processes.
    */
  lemma ClientNumCountsIds(n: nat, states: seq<State>, labels: seq<Label>, k: nat)
    requires IsRun(n, states, labels) && FreshIds(states, labels) && k < |states|
    requires states[k].lock2 > 0
    ensures |states[k].clients| == n + 1 && states[k].clientNum == InUse(states[k].clients, n + 1)
    ensures forall i, j :: 1 <= i < j <= n && states[k].clients[i].state && states[k].clients[j].state ==>
              states[k].clients[i].pid != states[k].clients[j].pid
  {
    RunSafe(n, states, labels, k);
    PopulationHolds(n, states, labels, k);
    assert forall p :: 0 <= p < |states[k].procs| ==> !Critical(states[k].procs[p].pc);
    forall i, j | 1 <= i < j <= n && states[k].clients[i].state && states[k].clients[j].state
      ensures states[k].clients[i].pid != states[k].clients[j].pid
    {
      assert OwnedBy(states[k], i, states[k].clients[i].pid) && OwnedBy(states[k], j, states[k].clients[j].pid);
    }
  }
}
