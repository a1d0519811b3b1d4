/**
  The ids of the multi-process server are a hint allocator too: what logins and logouts do to
  `state` and `min_id`, over all interleavings, is a run of takes and gives of module Hint, so
  its exact condition for a hint that names an id in use holds for this server.
  */
module HandoffHint {
  import opened Handoff
  import opened HandoffAdmission
  import opened HandoffIds
  import opened HandoffTokens
  import Hint
  import opened Options

  predicate Rescans(proc: Proc) {
    proc.pc.Login? && proc.pc.login.Rescan?
  }

  predicate Subtracts(proc: Proc) {
    proc.pc.Logout? && proc.pc.logout.SubOne?
  }

  /** Id k + 1 is in use exactly when slot k is. */
  predicate IdsAre(s: State, used: seq<bool>) {
    |s.clients| == |used| + 1 && forall k :: 0 <= k < |used| ==> s.clients[k + 1].state == used[k]
  }

  /**
    The ids are those of table t. Between marking its id and moving the hint a process that
    logs in or out is one half step ahead.
    */
  ghost predicate Follows(s: State, t: Hint.Table) {
    && |s.clients| == |t.used| + 1 && t.hint < |t.used| && s.minId == t.hint + 1
    && (forall p :: 0 <= p < |s.procs| && Entering(s.procs[p].pc) ==> s.procs[p].id == s.minId)
    && (forall p :: 0 <= p < |s.procs| && Rescans(s.procs[p]) ==> !t.used[t.hint] && IdsAre(s, t.used[t.hint := true]))
    && (forall p :: 0 <= p < |s.procs| && Subtracts(s.procs[p]) ==>
          1 <= s.procs[p].id <= |t.used| && t.used[s.procs[p].id - 1] && IdsAre(s, t.used[s.procs[p].id - 1 := false]))
    && ((forall p :: 0 <= p < |s.procs| ==> !Rescans(s.procs[p]) && !Subtracts(s.procs[p])) ==> IdsAre(s, t.used))
  }

  /** The take or give that the step completes. */
  function Completes(s: State, l: Label): Option<Hint.Event> {
    match l
    case LogIn(p) => if p < |s.procs| && Rescans(s.procs[p]) then Some(Hint.Take) else None
    case LogOut(p) => if p < |s.procs| && Subtracts(s.procs[p]) && s.procs[p].id >= 1
      then Some(Hint.Give(s.procs[p].id - 1)) else None
    case _ => None
  }

  /** The step does nothing to the table, or a take or give that hits no other user. */
  ghost predicate Advances(s: State, l: Label, t: Hint.Table, t': Hint.Table) {
    match Completes(s, l)
    case None => t' == t
    case Some(e) => Hint.Possible(t, e) && t' == Hint.After(t, e)
  }

  // ---- Steps ----

  lemma SameFollows(s: State, s': State, t: Hint.Table)
    requires Follows(s, t) && SameStages(s, s')
    ensures Follows(s', t)
  {
    forall p | 0 <= p < |s.procs|
      ensures Rescans(s'.procs[p]) == Rescans(s.procs[p]) && Subtracts(s'.procs[p]) == Subtracts(s.procs[p])
      ensures Entering(s'.procs[p].pc) == Entering(s.procs[p].pc) && s'.procs[p].id == s.procs[p].id
    {
      assert SameStage(s.procs[p], s'.procs[p]);
    }
    assert forall used :: IdsAre(s, used) == IdsAre(s', used);
    hide IdsAre, SameStage;
  }

  /** Which processes are halfway, when p has lock2 or nobody has. */
  lemma OnlyOne(s: State, p: nat)
    requires Mutex(s) && p < |s.procs| && (Critical(s.procs[p].pc) || s.lock2 > 0)
    ensures forall q :: 0 <= q < |s.procs| && q != p ==>
              !Entering(s.procs[q].pc) && !Rescans(s.procs[q]) && !Subtracts(s.procs[q])
  {
    Alone(s, p);
  }

  lemma FreeShift(s: State, used: seq<bool>, k: nat)
    requires IdsAre(s, used) && k >= 1
    ensures LeastFreeFrom(s.clients, k).Some? == Hint.FirstFree(used, k - 1).Some?
    ensures LeastFreeFrom(s.clients, k).Some? ==>
              LeastFreeFrom(s.clients, k).value == Hint.FirstFree(used, k - 1).value + 1
    decreases |s.clients| - k
  {
    if k < |s.clients| && s.clients[k].state { FreeShift(s, used, k + 1); }
  }

  lemma PublishFollows(s: State, p: nat, t: Hint.Table)
    requires WellFormed(s) && Mutex(s) && Ids(s) && Enabled(s, LogIn(p)) && s.procs[p].pc.login.Publish?
             && Follows(s, t)
    ensures Follows(DoLogIn(s, p), t)
  {
    OnlyOne(s, p);
    UnpublishedIsFree(s, p);
    var s' := DoLogIn(s, p);
    assert s'.procs == s.procs[p := s'.procs[p]];
    assert IdsAre(s, t.used);
    assert IdsAre(s', t.used[t.hint := true]);
  }

  lemma RescanFollows(s: State, p: nat, t: Hint.Table)
    requires WellFormed(s) && Mutex(s) && Enabled(s, LogIn(p)) && s.procs[p].pc.login.Rescan? && Follows(s, t)
    ensures Hint.Possible(t, Hint.Take) && Follows(DoLogIn(s, p), Hint.Taken(t))
  {
    OnlyOne(s, p);
    FreeShift(s, t.used[t.hint := true], 1);
    var s' := DoLogIn(s, p);
    assert s'.procs == s.procs[p := s'.procs[p]];
    assert IdsAre(s', Hint.Taken(t).used);
  }

  lemma LogInFollows(s: State, p: nat, t: Hint.Table)
    requires WellFormed(s) && Mutex(s) && Enabled(s, LogIn(p)) && Follows(s, t)
    requires !s.procs[p].pc.login.Publish? && !s.procs[p].pc.login.Rescan?
    ensures Follows(DoLogIn(s, p), t)
  {
    OnlyOne(s, p);
    var s' := DoLogIn(s, p);
    assert s'.procs == s.procs[p := s'.procs[p]];
    assert IdsAre(s', t.used);
  }

  lemma DeletedIds(s: State, id: nat, used: seq<bool>)
    requires IdsAre(s, used) && 1 <= id <= |used|
    ensures IdsAre(s.(clients := Deleted(s.clients, id)), used[id - 1 := false])
  {
  }

  lemma DeleteFollows(s: State, p: nat, t: Hint.Table)
    requires WellFormed(s) && Mutex(s) && Ids(s) && Enabled(s, LogOut(p)) && Follows(s, t)
    requires s.procs[p].pc.Logout? && s.procs[p].pc.logout.Delete?
    ensures Follows(DoLogOut(s, p), t)
  {
    OnlyOne(s, p);
    var id, s' := s.procs[p].id, DoLogOut(s, p);
    assert s'.procs == s.procs[p := s'.procs[p]];
    assert ProcFormed(s.procs[p], MaxId(s)) && Owner(s, p);
    assert IdsAre(s, t.used) && t.used[id - 1];
    DeletedIds(s, id, t.used);
    assert IdsAre(s', t.used[id - 1 := false]) by { hide Follows; }
    hide IdsAre, WellFormed, Ids, Mutex, Deleted;
  }

  lemma SubtractFollows(s: State, p: nat, t: Hint.Table)
    requires WellFormed(s) && Mutex(s) && Enabled(s, LogOut(p)) && Follows(s, t) && Subtracts(s.procs[p])
    ensures s.procs[p].id >= 1 && Hint.Possible(t, Hint.Give(s.procs[p].id - 1))
    ensures Follows(DoLogOut(s, p), Hint.Given(t, s.procs[p].id - 1))
  {
    OnlyOne(s, p);
    var s' := DoLogOut(s, p);
    assert s'.procs == s.procs[p := s'.procs[p]];
    assert IdsAre(s', Hint.Given(t, s.procs[p].id - 1).used);
  }

  lemma LogOutFollows(s: State, p: nat, t: Hint.Table)
    requires WellFormed(s) && Mutex(s) && Enabled(s, LogOut(p)) && Follows(s, t)
    requires s.procs[p].pc.Leave? || s.procs[p].pc.logout.AskAgain?
    ensures Follows(DoLogOut(s, p), t)
  {
    OnlyOne(s, p);
    var s' := DoLogOut(s, p);
    assert s'.procs == s.procs[p := s'.procs[p]];
    assert IdsAre(s', t.used);
  }

  lemma AcceptFollows(s: State, g: string, t: Hint.Table)
    requires Follows(s, t)
    ensures Follows(DoAccept(s, g), t)
  {
    var s' := DoAccept(s, g);
    assert forall q :: 0 <= q < |s.procs| ==> s'.procs[q] == s.procs[q];
    assert forall used :: IdsAre(s, used) == IdsAre(s', used);
    hide IdsAre;
  }

  lemma ParentFollows(s: State, l: Label, t: Hint.Table)
    requires WellFormed(s) && Enabled(s, l) && Follows(s, t) && (l.ParentWakes? || l.ParentRechecks?)
    ensures Follows(Next(s, l), t)
  {
    var s' := Next(s, l);
    assert s'.procs == s.procs && s'.clients == s.clients && s'.minId == s.minId;
    assert forall used :: IdsAre(s, used) == IdsAre(s', used);
    hide IdsAre, Enabled, Next;
  }

  lemma StepFollows(s: State, l: Label, t: Hint.Table) returns (t': Hint.Table)
    requires Safe(s) && Enabled(s, l) && Follows(s, t)
    ensures Advances(s, l, t, t') && Follows(Next(s, l), t')
  {
    hide Tokens, Admission, Follows, Mutex, Ids;
    t' := t;
    match l
    case LogIn(p) =>
      if s.procs[p].pc.login.Publish? { PublishFollows(s, p, t); }
      else if s.procs[p].pc.login.Rescan? {
        RescanFollows(s, p, t);
        t' := Hint.Taken(t);
      } else { LogInFollows(s, p, t); }
    case LogOut(p) =>
      if s.procs[p].pc.Leave? || s.procs[p].pc.logout.AskAgain? { LogOutFollows(s, p, t); }
      else if s.procs[p].pc.logout.Delete? { DeleteFollows(s, p, t); }
      else {
        SubtractFollows(s, p, t);
        t' := Hint.Given(t, s.procs[p].id - 1);
      }
    case Accept(g) => AcceptFollows(s, g, t);
    case ParentWakes => ParentFollows(s, l, t);
    case ParentRechecks => ParentFollows(s, l, t);
    case _ =>
      OtherStepsKeepStages(s, l);
      SameFollows(s, Next(s, l), t);
  }

  // ---- Runs ----

  /** The takes and gives that the first k steps complete, in order. */
  function TakesAndGives(states: seq<State>, labels: seq<Label>, k: nat): seq<Hint.Event>
    requires k <= |labels| <= |states|
  {
    if k == 0 then []
    else
      var before := TakesAndGives(states, labels, k - 1);
      match Completes(states[k - 1], labels[k - 1]) case None => before case Some(e) => before + [e]
  }

  /** A run of the hint allocator with these takes and gives, and its last table. */
  ghost predicate Explains(tables: seq<Hint.Table>, events: seq<Hint.Event>, n: nat, s: State) {
    Hint.IsRun(n, tables, events) && |tables| == |events| + 1 && Follows(s, tables[|events|])
  }

  lemma ExtendRun(n: nat, tables: seq<Hint.Table>, events: seq<Hint.Event>, e: Hint.Event)
    requires Hint.IsRun(n, tables, events) && Hint.Possible(tables[|events|], e)
    ensures Hint.IsRun(n, tables + [Hint.After(tables[|events|], e)], events + [e])
  {
  }

  lemma InitFollows(n: nat)
    requires n >= 1
    ensures Hint.IsRun(n, [Hint.Empty(n)], []) && Follows(Init(n), Hint.Empty(n))
  {
  }

  lemma NextExplained(n: nat, states: seq<State>, labels: seq<Label>, k: nat, tables: seq<Hint.Table>)
    returns (tables': seq<Hint.Table>)
    requires IsRun(n, states, labels) && FreshIds(states, labels) && k < |labels|
    requires Explains(tables, TakesAndGives(states, labels, k), n, states[k])
    ensures Explains(tables', TakesAndGives(states, labels, k + 1), n, states[k + 1])
  {
    var events := TakesAndGives(states, labels, k);
    RunSafe(n, states, labels, k);
    hide Safe, Follows, FreshIds;
    var t := StepFollows(states[k], labels[k], tables[|events|]);
    match Completes(states[k], labels[k])
    case None => tables' := tables;
    case Some(e) =>
      ExtendRun(n, tables, events, e);
      tables' := tables + [t];
  }

  lemma {:induction false} Explained(n: nat, states: seq<State>, labels: seq<Label>, k: nat)
    returns (tables: seq<Hint.Table>)
    requires IsRun(n, states, labels) && FreshIds(states, labels) && k <= |labels|
    ensures Explains(tables, TakesAndGives(states, labels, k), n, states[k])
  {
    hide FreshIds, Explains;
    if k == 0 {
      InitFollows(n);
      tables := [Hint.Empty(n)];
      assert Explains(tables, TakesAndGives(states, labels, k), n, states[k]) by { FirstExplained(n, states, labels); }
    } else {
      tables := Explained(n, states, labels, k - 1);
      tables := NextExplained(n, states, labels, k - 1, tables);
    }
  }

  lemma FirstExplained(n: nat, states: seq<State>, labels: seq<Label>)
    requires IsRun(n, states, labels)
    ensures Explains([Hint.Empty(n)], [], n, states[0])
  {
    InitFollows(n);
  }

  /**
    In every run in which no login was given an id in use, the ids are those of the hint
    allocator after the run's takes and gives; and whenever lock2 is free, the next login
    would be given an id in use if and only if some login filled the table and since then
    only ids above the one it took were given back.
    */
  lemma StaleExactlyWhen(n: nat, states: seq<State>, labels: seq<Label>, k: nat) returns (tables: seq<Hint.Table>)
    requires IsRun(n, states, labels) && FreshIds(states, labels) && k <= |labels| && states[k].lock2 > 0
    ensures var events := TakesAndGives(states, labels, k);
            && Hint.IsRun(n, tables, events) && |tables| == |events| + 1
            && IdsAre(states[k], tables[|events|].used) && states[k].minId == tables[|events|].hint + 1
            && states[k].minId < |states[k].clients|
            && (states[k].clients[states[k].minId].state <==> exists t :: Hint.StaleSince(tables, events, t, |events|))
  {
    var events := TakesAndGives(states, labels, k);
    tables := Explained(n, states, labels, k);
    RunSafe(n, states, labels, k);
    assert forall p :: 0 <= p < |states[k].procs| ==> !Critical(states[k].procs[p].pc);
    hide IsRun, FreshIds, Critical;
    assert forall p :: 0 <= p < |states[k].procs| ==>
        !Rescans(states[k].procs[p]) && !Subtracts(states[k].procs[p]) by { NoneHalfway(states[k]); }
    Hint.StaleExactlyWhen(n, tables, events, |events|);
  }

  lemma NoneHalfway(s: State)
    requires forall p :: 0 <= p < |s.procs| ==> !Critical(s.procs[p].pc)
    ensures forall p :: 0 <= p < |s.procs| ==> !Rescans(s.procs[p]) && !Subtracts(s.procs[p])
  {
  }
}
