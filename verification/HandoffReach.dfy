/**
  Which offers of FIFOs come to their rendezvous: exactly those whose receiver is in no
  knot. Also a run in which a client blocks itself.
  */
module HandoffReach {
  import opened Handoff
  import opened HandoffAdmission
  import opened HandoffKnots
  import opened HandoffPipes
  import opened HandoffTokens

  /** States and the steps between them, from any state on. */
  datatype Trail = Trail(states: seq<State>, labels: seq<Label>)

  ghost predicate IsStep(s: State, l: Label, s': State) {
    WellFormed(s) && Enabled(s, l) && FreshId(s, l) && s' == Next(s, l)
  }

  ghost predicate Steps(t: Trail) {
    |t.states| == |t.labels| + 1 && forall k :: 0 <= k < |t.labels| ==>
        IsStep(t.states[k], t.labels[k], t.states[k + 1])
  }

  function Last(t: Trail): State
    requires |t.states| > 0
  {
    t.states[|t.states| - 1]
  }

  /** The trail ends with the rendezvous that p's handler waits for. */
  predicate Serves(t: Trail, p: nat) {
    |t.labels| > 0 && t.labels[|t.labels| - 1].Rendezvous? && t.labels[|t.labels| - 1].p == p
  }

  ghost predicate CanBeServed(s: State, p: nat) {
    exists t: Trail :: Steps(t) && t.states[0] == s && Serves(t, p)
  }

  lemma {:induction false} TrailIsSafe(t: Trail, k: nat)
    requires Steps(t) && k < |t.states| && Safe(t.states[0]) && Pipes(t.states[0])
    ensures Safe(t.states[k]) && Pipes(t.states[k])
  {
    if k > 0 {
      TrailIsSafe(t, k - 1);
      assert IsStep(t.states[k - 1], t.labels[k - 1], t.states[k - 1 + 1]);
      StepSafe(t.states[k - 1], t.labels[k - 1]);
      StepKeepsPipes(t.states[k - 1], t.labels[k - 1]);
    }
    hide Safe, Pipes;
  }

  lemma {:induction false} KnotOnTrail(t: Trail, knot: set<nat>, k: nat)
    requires Steps(t) && k < |t.states| && Safe(t.states[0]) && Pipes(t.states[0]) && Knot(t.states[0], knot)
    ensures Knot(t.states[k], knot)
  {
    if k > 0 {
      KnotOnTrail(t, knot, k - 1);
      TrailIsSafe(t, k - 1);
      assert IsStep(t.states[k - 1], t.labels[k - 1], t.states[k - 1 + 1]);
      hide Safe, Pipes, Knot;
      KnotLasts(t.states[k - 1], t.labels[k - 1], knot);
    }
  }

  /** Nobody in a knot is ever served. */
  lemma KnotIsNeverServed(s: State, knot: set<nat>, p: nat)
    requires Safe(s) && Pipes(s) && Knot(s, knot) && p in knot
    ensures !CanBeServed(s, p)
  {
    if t: Trail :| Steps(t) && t.states[0] == s && Serves(t, p) {
      var k := |t.labels| - 1;
      KnotOnTrail(t, knot, k);
      TrailIsSafe(t, k);
      var q := MemberIsTied(t.states[k], knot, p);
      assert IsStep(t.states[k], t.labels[k], t.states[k + 1]);
      hide Safe, Pipes, Knot;
      WriterIsFree(t.states[k], p, q, t.labels[k].writer);
    }
  }

  // ---- Serving everybody else ----

  /** A step of a handler, or its delivery. */
  predicate Handling(l: Label) {
    l.Deliver? || l.Handle? || l.Rendezvous? || l.PostMailbox?
  }

  /** A trail from s in which only handlers step, and nobody in `others` is served. */
  ghost predicate From(t: Trail, s: State, others: set<nat>) {
    && Steps(t) && t.states[0] == s && Safe(Last(t)) && Pipes(Last(t))
    && (forall k :: 0 <= k < |t.labels| ==>
        Handling(t.labels[k]) && !(t.labels[k].Rendezvous? && t.labels[k].p in others))
  }

  lemma StepIsSafe(s: State, l: Label)
    requires Safe(s) && Pipes(s) && Handling(l) && Enabled(s, l)
    ensures Safe(Next(s, l)) && Pipes(Next(s, l)) && FreshId(s, l)
  {
    assert FreshId(s, l);
    hide Safe, Pipes, Enabled, Next;
    StepSafe(s, l);
    StepKeepsPipes(s, l);
  }

  lemma AppendStep(t: Trail, l: Label, s': State)
    requires Steps(t) && IsStep(Last(t), l, s')
    ensures Steps(Trail(t.states + [s'], t.labels + [l]))
  {
    var u := Trail(t.states + [s'], t.labels + [l]);
    hide IsStep;
    forall k | 0 <= k < |u.labels|
      ensures IsStep(u.states[k], u.labels[k], u.states[k + 1])
    {
      if k < |t.labels| { assert IsStep(t.states[k], t.labels[k], t.states[k + 1]); }
    }
  }

  lemma Extend(t: Trail, s: State, others: set<nat>, l: Label) returns (u: Trail)
    requires From(t, s, others) && Handling(l) && WellFormed(Last(t)) && Enabled(Last(t), l)
    requires !(l.Rendezvous? && l.p in others)
    ensures From(u, s, others) && Last(u) == Next(Last(t), l) && u.labels == t.labels + [l]
  {
    assert |t.states| > 0;
    var s' := Next(Last(t), l);
    StepIsSafe(Last(t), l);
    assert IsStep(Last(t), l, s');
    hide Safe, Pipes, Enabled, Next, WellFormed, FreshId, IsStep;
    AppendStep(t, l, s');
    hide Steps;
    u := Trail(t.states + [s'], t.labels + [l]);
  }

  lemma AwaitStep(t: Trail, s: State, others: set<nat>, p: nat, q: nat, k: nat)
    requires From(t, s, others) && k < |t.labels| && k < |t.states| && Safe(t.states[k])
             && Awaits(t.states[k], p, q) && p in others
    ensures k + 1 < |t.states| && Awaits(t.states[k + 1], p, q)
  {
    assert IsStep(t.states[k], t.labels[k], t.states[k + 1]);
    assert !(t.labels[k].Rendezvous? && t.labels[k].p == p);
    hide Safe, Pipes, Awaits, Enabled, Next, WellFormed, FreshId, From, Steps;
    AwaitGoesOn(t.states[k], t.labels[k], p, q);
  }

  lemma {:induction false} AwaitAlong(t: Trail, s: State, others: set<nat>, p: nat, q: nat, k: nat)
    requires From(t, s, others) && k < |t.states| && Safe(s) && Pipes(s) && Awaits(s, p, q) && p in others
    ensures Awaits(t.states[k], p, q)
  {
    assert |t.states| == |t.labels| + 1 && Steps(t) && t.states[0] == s;
    hide Safe, Pipes, Awaits, From, Steps;
    if k > 0 {
      AwaitAlong(t, s, others, p, q, k - 1);
      TrailIsSafe(t, k - 1);
      AwaitStep(t, s, others, p, q, k - 1);
    }
  }

  /** How far a process is from having handled a text. */
  function Stage(proc: Proc): nat {
    if proc.handler == Posting then 1 else if proc.handler == Running(Usr1) then 2
      else if proc.pending != {} then 3 else 0
  }

  lemma TextStep(s: State, q: nat) returns (l: Label)
    requires Safe(s) && q < |s.procs| && Busy(s.procs[q]) && !Offered(s.procs[q])
    ensures Handling(l) && !l.Rendezvous? && Enabled(s, l) && q < |Next(s, l).procs|
    ensures !Offered(Next(s, l).procs[q]) && Stage(Next(s, l).procs[q]) < Stage(s.procs[q])
  {
    assert ReceiverOk(s, q);
    l := if s.procs[q].handler == Posting then PostMailbox(q)
         else if s.procs[q].handler == Running(Usr1) then Handle(q) else Deliver(q, Usr1);
    hide Mutex, Admission, Ids, Tokens;
  }

  /** A process that handles a text is soon done. */
  lemma {:induction false} Finish(t: Trail, s: State, others: set<nat>, q: nat) returns (u: Trail)
    requires From(t, s, others) && |t.states| > 0 && q < |Last(t).procs| && !Offered(Last(t).procs[q])
    ensures From(u, s, others) && |u.states| > 0 && q < |Last(u).procs| && !Busy(Last(u).procs[q])
    decreases Stage(Last(t).procs[q])
  {
    u := t;
    if Busy(Last(t).procs[q]) {
      var l := TextStep(Last(t), q);
      assert WellFormed(Last(t));
      hide Safe, Pipes, Enabled, Next, WellFormed, Busy, Offered, Stage, Steps;
      u := Extend(t, s, others, l);
      u := Finish(u, s, others, q);
    }
  }

  lemma DeliverOffer(s: State, p: nat, q: nat)
    requires Safe(s) && Pipes(s) && Awaits(s, p, q) && s.procs[p].handler == NoHandler && q < |s.procs|
             && !Busy(s.procs[q])
    ensures Enabled(s, Deliver(p, Usr2))
    ensures var s' := DoDeliver(s, p, Usr2);
            Awaits(s', p, q) && s'.procs[p].handler == Running(Usr2) && q < |s'.procs| && !Busy(s'.procs[q])
  {
    var r := AwaitsOne(s, p);
    hide Safe, Pipes;
  }

  lemma CanMeet(s: State, p: nat, q: nat)
    requires Safe(s) && Pipes(s) && Awaits(s, p, q) && s.procs[p].handler == Running(Usr2) && q < |s.procs|
             && !Busy(s.procs[q])
    ensures Enabled(s, Rendezvous(p, q))
  {
    var r := AwaitsOne(s, p);
    hide Pipes;
  }

  /** The signal of an offer that is pending is delivered. */
  lemma Deliverance(t: Trail, s: State, others: set<nat>, p: nat, q: nat) returns (u: Trail)
    requires From(t, s, others) && |t.states| > 0 && Awaits(Last(t), p, q) && Last(t).procs[p].handler == NoHandler
    requires q < |Last(t).procs| && !Busy(Last(t).procs[q])
    ensures From(u, s, others) && |u.states| > 0 && Awaits(Last(u), p, q) && Last(u).procs[p].handler == Running(Usr2)
    ensures q < |Last(u).procs| && !Busy(Last(u).procs[q])
  {
    DeliverOffer(Last(t), p, q);
    SafeIsFormed(Last(t));
    hide Safe, Pipes, WellFormed, Enabled, Busy, Steps, DoDeliver, Awaits;
    u := Extend(t, s, others, Deliver(p, Usr2));
  }

  lemma Opening(t: Trail, s: State, others: set<nat>, p: nat, q: nat) returns (u: Trail)
    requires From(t, s, others) && |t.states| > 0 && Awaits(Last(t), p, q) && Last(t).procs[p].handler == Running(Usr2)
    requires q < |Last(t).procs| && !Busy(Last(t).procs[q]) && p !in others
    ensures From(u, s, others) && Serves(u, p)
  {
    CanMeet(Last(t), p, q);
    SafeIsFormed(Last(t));
    hide Safe, Pipes, WellFormed, Enabled, Busy, Steps, Next, Awaits;
    u := Extend(t, s, others, Rendezvous(p, q));
    assert u.labels[|u.labels| - 1] == Rendezvous(p, q);
  }

  lemma HandlerOfOffer(s: State, p: nat, q: nat)
    requires Safe(s) && Pipes(s) && Awaits(s, p, q)
    ensures s.procs[p].handler == NoHandler || s.procs[p].handler == Running(Usr2)
  {
    var r := AwaitsOne(s, p);
  }

  /** The rendezvous of p with a writer that has nothing to handle. */
  lemma Meet(t: Trail, s: State, others: set<nat>, p: nat, q: nat) returns (u: Trail)
    requires From(t, s, others) && |t.states| > 0 && Awaits(Last(t), p, q) && p !in others
    requires q < |Last(t).procs| && !Busy(Last(t).procs[q])
    ensures From(u, s, others) && Serves(u, p)
  {
    HandlerOfOffer(Last(t), p, q);
    hide From, Busy, Serves, Last;
    u := t;
    if Last(t).procs[p].handler == NoHandler { u := Deliverance(u, s, others, p, q); }
    u := Opening(u, s, others, p, q);
  }

  lemma SafeIsFormed(s: State)
    requires Safe(s)
    ensures WellFormed(s)
  {
  }

  lemma ThenMeet(t: Trail, s: State, p: nat, q: nat, others: set<nat>) returns (u: Trail)
    requires From(t, s, others + {p}) && |t.states| > 0 && Safe(s) && Pipes(s) && Awaits(s, p, q) && p !in others
    requires q < |Last(t).procs| && !Busy(Last(t).procs[q])
    ensures From(u, s, others) && Serves(u, p)
  {
    AwaitAlong(t, s, others + {p}, p, q, |t.states| - 1);
    assert From(t, s, others);
    hide Safe, Pipes, Awaits, Busy, Steps;
    u := Meet(t, s, others, p, q);
  }

  /** Everybody in the set waits for somebody in it or for p. */
  ghost predicate LeadsTo(s: State, others: set<nat>, p: nat) {
    forall v: nat {:trigger Tied(s, others + {p}, v)} :: v in others ==> Tied(s, others + {p}, v)
  }

  /**
    Follows the chain of waits from p. If it comes back to where it was, p is in a knot;
    otherwise it ends with a process that waits for nobody, and from there on everybody in
    the chain can be served, back to p.
    */
  lemma {:induction false} Serve(s: State, p: nat, others: set<nat>) returns (t: Trail)
    requires Safe(s) && Pipes(s) && p < |s.procs| && Offered(s.procs[p]) && p !in others
    requires (forall v :: v in others ==> v < |s.procs|) && LeadsTo(s, others, p)
    requires forall knot :: Knot(s, knot) ==> p !in knot
    ensures From(t, s, others) && Serves(t, p)
    decreases |s.procs| - |others|
  {
    SmallSet(others + {p}, |s.procs|);
    var q := AwaitsOne(s, p);
    t := Trail([s], []);
    EmptyTrail(s, others + {p});
    hide Safe, Pipes, Offered, Knot, Tied, LeadsTo, Awaits, Steps, From, Last, Serves;
    if Offered(s.procs[q]) {
      Onwards(s, p, q, others);
      t := Serve(s, q, others + {p});
      t := Release(t, s, others + {p}, q);
    } else {
      t := Finish(t, s, others + {p}, q);
    }
    t := ThenMeet(t, s, p, q, others);
  }

  lemma EmptyTrail(s: State, others: set<nat>)
    requires Safe(s) && Pipes(s)
    ensures From(Trail([s], []), s, others) && Last(Trail([s], [])) == s
  {
  }

  lemma {:induction false} SmallSet(a: set<nat>, n: nat)
    requires forall v :: v in a ==> v < n
    ensures |a| <= n
  {
    if n == 0 {
      assert a == {};
    } else {
      SmallSet(a - {n - 1}, n - 1);
    }
  }

  lemma TiedInMore(s: State, few: set<nat>, many: set<nat>, v: nat)
    requires Tied(s, few, v) && few <= many
    ensures Tied(s, many, v)
  {
    var w: nat :| w in few && Awaits(s, v, w);
    assert w in many;
  }

  lemma ClosedChain(s: State, p: nat, q: nat, others: set<nat>)
    requires Awaits(s, p, q) && LeadsTo(s, others, p) && q in others + {p}
    ensures Knot(s, others + {p})
  {
    var chain := others + {p};
    forall v: nat | v in chain
      ensures Tied(s, chain, v)
    {
      if v == p { assert q in chain && Awaits(s, v, q); }
    }
  }

  lemma LongerChain(s: State, p: nat, q: nat, others: set<nat>)
    requires Awaits(s, p, q) && LeadsTo(s, others, p)
    ensures LeadsTo(s, others + {p}, q)
  {
    var chain := others + {p};
    forall v: nat | v in chain
      ensures Tied(s, chain + {q}, v)
    {
      if v == p {
        assert q in chain + {q} && Awaits(s, v, q);
      } else {
        assert Tied(s, chain, v);
        TiedInMore(s, chain, chain + {q}, v);
      }
    }
  }

  /** The chain goes on to q, which is new in it and in no knot. */
  lemma Onwards(s: State, p: nat, q: nat, others: set<nat>)
    requires Awaits(s, p, q) && LeadsTo(s, others, p)
    requires forall knot :: Knot(s, knot) ==> p !in knot
    ensures q !in others + {p} && LeadsTo(s, others + {p}, q)
    ensures forall knot :: Knot(s, knot) ==> q !in knot
  {
    hide LeadsTo, Awaits, Knot;
    if q in others + {p} { ClosedChain(s, p, q, others); }
    LongerChain(s, p, q, others);
    forall knot | Knot(s, knot)
      ensures q !in knot
    {
      if q in knot { Joins(s, knot, p, q); }
    }
  }

  lemma Joins(s: State, knot: set<nat>, p: nat, q: nat)
    requires Knot(s, knot) && q in knot && Awaits(s, p, q)
    ensures Knot(s, knot + {p})
  {
    forall v: nat | v in knot + {p}
      ensures Tied(s, knot + {p}, v)
    {
      if v in knot {
        assert Tied(s, knot, v);
        TiedInMore(s, knot, knot + {p}, v);
      } else {
        assert q in knot + {p} && Awaits(s, v, q);
      }
    }
  }

  /** After its rendezvous a process posts its mailbox and has nothing to handle. */
  lemma Release(t: Trail, s: State, others: set<nat>, q: nat) returns (u: Trail)
    requires From(t, s, others) && Serves(t, q) && Safe(s) && Pipes(s)
    ensures From(u, s, others) && |u.states| > 0 && q < |Last(u).procs| && !Busy(Last(u).procs[q])
  {
    var k := |t.labels| - 1;
    assert IsStep(t.states[k], t.labels[k], t.states[k + 1]);
    TrailIsSafe(t, k);
    ServedIsDone(t.states[k], q, t.labels[k].writer);
    assert Last(t) == t.states[k + 1] && |t.states| > 0;
    hide Safe, Pipes, Enabled, Next, WellFormed, Busy, Offered;
    u := Finish(t, s, others, q);
  }

  /**
    A process that was offered a FIFO can still come to its rendezvous if and only if it is
    in no knot.
    */
  lemma ServedExactlyWhen(s: State, p: nat)
    requires Safe(s) && Pipes(s) && p < |s.procs| && Offered(s.procs[p])
    ensures CanBeServed(s, p) <==> !exists knot :: Knot(s, knot) && p in knot
  {
    if knot :| Knot(s, knot) && p in knot {
      KnotIsNeverServed(s, knot, p);
    } else {
      hide Safe, Pipes, Offered, Knot;
      var t := Serve(s, p, {});
      assert CanBeServed(s, p);
    }
  }

  /** As long as no kill of the run has closed a knot every offer can come to its rendezvous. */
  lemma OthersAreServed(n: nat, states: seq<State>, labels: seq<Label>, k: nat, p: nat)
    requires IsRun(n, states, labels) && FreshIds(states, labels) && k < |states| && !ClosedBefore(states, labels, k)
    requires p < |states[k].procs| && Offered(states[k].procs[p])
    ensures CanBeServed(states[k], p)
  {
    RunKnots(n, states, labels, k);
    KnotsExactly(n, states, labels, k);
    assert !Knotted(states[k]);
    hide IsRun, Safe, Pipes, Knot, ClosedBefore, Offered, FreshIds;
    ServedExactlyWhen(states[k], p);
  }

  // ---- A client that blocks itself ----

  const QUIET := InitialClient(1)
  const ACTIVE := QUIET.(state := true, pid := 0)

  /** The states of a server for one client, whose user types `>1`. */
  function Lonely(k: nat): State
    requires k <= 14
  {
    var none, ask := InitialClient(0), Send(SemWait, 1, Offer(1), OpenFifo);
    var taken := Entry(0, 1, Offer(1), Taken);
    var sent := ACTIVE.(lock := 0, mailbox := Path(1), fromId := 1);
    match k
    case 0 => State([none, QUIET], [], Accepting, 0, 1, 0, 1, 1, [])
    case 1 => State([none, QUIET], [Proc(0, Login(AskLock2, ""), false, {}, NoHandler)], AwaitLogin, 0, 1, 0, 1, 1, [])
    case 2 => State([none, QUIET], [Proc(1, Login(AddOne, ""), false, {}, NoHandler)], AwaitLogin, 0, 1, 0, 0, 1, [])
    case 3 => State([none, QUIET], [Proc(1, Login(Publish, ""), false, {}, NoHandler)], AwaitLogin, 1, 1, 0, 0, 1, [])
    case 4 => State([none, ACTIVE], [Proc(1, Login(Rescan, ""), false, {}, NoHandler)], AwaitLogin, 1, 1, 0, 0, 1, [])
    case 5 => State([none, ACTIVE], [Proc(1, Login(FreeLock2, ""), false, {}, NoHandler)], AwaitLogin, 1, 1, 1,
                    0, 1, [])
    case 6 => State([none, ACTIVE], [Proc(1, Broadcast(1, "", false), false, {}, NoHandler)], AwaitLogin, 1, 1, 1,
                    1, 1, [])
    case 7 => State([none, ACTIVE], [Proc(1, Broadcast(2, "", false), false, {}, NoHandler)], AwaitLogin, 1, 1, 1,
                    1, 1, [])
    case 8 => State([none, ACTIVE], [Proc(1, Idle, false, {}, NoHandler)], AwaitLogin, 1, 1, 1, 1, 1, [])
    case 9 => State([none, ACTIVE], [Proc(1, Naming(false, 1), false, {}, NoHandler)], AwaitLogin, 1, 1, 1, 1, 1, [])
    case 10 => State([none, ACTIVE], [Proc(1, Naming(true, 1), false, {}, NoHandler)], AwaitLogin, 1, 1, 1, 1, 0, [])
    case 11 => State([none, ACTIVE], [Proc(1, ask, false, {}, NoHandler)], AwaitLogin, 1, 1, 1, 1, 1, [(1, 1)])
    case 12 => State([none, ACTIVE.(lock := 0, log := [taken])],
                     [Proc(1, ask.(send := Fill), false, {}, NoHandler)], AwaitLogin, 1, 1, 1, 1, 1, [(1, 1)])
    case 13 => State([none, sent.(log := [taken])], [Proc(1, ask.(send := TestState), false, {}, NoHandler)],
                     AwaitLogin, 1, 1, 1, 1, 1, [(1, 1)])
    case _ => State([none, sent.(log := [taken.(status := Committed(0))])],
                    [Proc(1, OpenWrite(1, 1), false, {Usr2}, NoHandler)], AwaitLogin, 1, 1, 1, 1, 1, [(1, 1)])
  }

  function LonelyStep(k: nat): Label {
    if k == 0 then Accept("") else if k <= 5 then LogIn(0) else if k <= 7 then Loop(0)
    else if k == 8 then Start(0, PipeTo(1)) else if k <= 10 then Name(0) else HandOver(0)
  }

  lemma LonelyLogsIn(k: nat)
    requires k < 6
    ensures IsStep(Lonely(k), LonelyStep(k), Lonely(k + 1))
  {
  }

  lemma LonelyAsks(k: nat)
    requires 6 <= k < 11
    ensures IsStep(Lonely(k), LonelyStep(k), Lonely(k + 1))
  {
  }

  lemma LonelyTakes()
    ensures IsStep(Lonely(11), LonelyStep(11), Lonely(12))
  {
    var s, s' := Lonely(11), Lonely(12);
    assert s.clients[1].log + [Entry(0, 1, Offer(1), Taken)] == s'.clients[1].log;
    assert Next(s, HandOver(0)).clients == s'.clients && Next(s, HandOver(0)).procs == s'.procs;
  }

  lemma LonelyFills()
    ensures IsStep(Lonely(12), LonelyStep(12), Lonely(13))
  {
    var s, s' := Lonely(12), Lonely(13);
    assert Next(s, HandOver(0)).clients == s'.clients && Next(s, HandOver(0)).procs == s'.procs;
  }

  lemma LonelyKills()
    ensures IsStep(Lonely(13), LonelyStep(13), Lonely(14))
  {
    var s, s' := Lonely(13), Lonely(14);
    assert s.procs[0].pending + {Usr2} == s'.procs[0].pending;
    assert Mark(s.clients[1].log, Committed(0)) == s'.clients[1].log;
    assert Next(s, HandOver(0)).clients == s'.clients && Next(s, HandOver(0)).procs == s'.procs;
  }

  lemma LonelySteps(k: nat)
    requires k < 14
    ensures IsStep(Lonely(k), LonelyStep(k), Lonely(k + 1))
  {
    if k < 6 {
      LonelyLogsIn(k);
    } else if k < 11 {
      LonelyAsks(k);
    } else if k == 11 {
      LonelyTakes();
    } else if k == 12 {
      LonelyFills();
    } else {
      LonelyKills();
    }
    hide IsStep, Lonely, LonelyStep;
  }

  lemma StepsAreRun(n: nat, states: seq<State>, labels: seq<Label>)
    requires n >= 1 && |states| == |labels| + 1 && states[0] == Init(n)
    requires forall k :: 0 <= k < |labels| ==> IsStep(states[k], labels[k], states[k + 1])
    ensures IsRun(n, states, labels) && FreshIds(states, labels)
  {
    hide Init, Enabled, Next, WellFormed, FreshId;
    forall k | 0 <= k < |labels|
      ensures WellFormed(states[k]) && Enabled(states[k], labels[k]) && states[k + 1] == Next(states[k], labels[k])
      ensures FreshId(states[k], labels[k])
    {
      assert IsStep(states[k], labels[k], states[k + 1]);
    }
  }

  lemma LonelyRun() returns (states: seq<State>, labels: seq<Label>)
    ensures IsRun(1, states, labels) && FreshIds(states, labels) && |states| == 15 && states[14] == Lonely(14)
  {
    states := seq(15, k requires 0 <= k < 15 => Lonely(k));
    labels := seq(14, k requires 0 <= k < 14 => LonelyStep(k));
    LonelyStarts();
    hide Lonely, LonelyStep, Init, IsStep, IsRun, FreshIds;
    forall k | 0 <= k < 14
      ensures IsStep(states[k], labels[k], states[k + 1])
    {
      LonelySteps(k);
    }
    StepsAreRun(1, states, labels);
  }

  /** A run that ends with a client waiting for itself. */
  lemma SelfOfferBlocks() returns (states: seq<State>, labels: seq<Label>)
    ensures IsRun(1, states, labels) && FreshIds(states, labels) && |states| == 15
    ensures Awaits(states[14], 0, 0) && Knot(states[14], {0}) && !CanBeServed(states[14], 0)
  {
    hide IsRun, FreshIds, Safe, Pipes, Awaits, Lonely, CanBeServed, NamesFree;
    states, labels := LonelyRun();
    LonelyWaits();
    RunKnots(1, states, labels, 14);
    assert Tied(states[14], {0}, 0);
    KnotIsNeverServed(states[14], {0}, 0);
  }

  lemma LonelyStarts()
    ensures Lonely(0) == Init(1)
  {
    assert Lonely(0).clients == Init(1).clients;
  }

  lemma LonelyWaits()
    ensures Awaits(Lonely(14), 0, 0)
  {
  }
}
