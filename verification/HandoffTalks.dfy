/**
  Whom a line reaches: from the step in which a process takes up a yell, a greeting, a farewell,
  a tell or an offer of a FIFO until it is done with it, exactly the ids meant are sent to, once
  each, and what is sent to an id that stays in use is committed to its process.
  */
module HandoffTalks {
  import opened Handoff
  import opened HandoffAdmission
  import opened HandoffTokens
  import opened Options

  /** What a process has to send: a text to everybody else or to one id, or an offer to one id. */
  datatype Talk =
    | ToAll(text: string)
    | ToOne(to: nat, text: string)
    | Offering(to: nat)

  // ---- What a history says of it ----

  /** Entry i was added after the first `from` ones, for sender p. */
  predicate SentBy(log: seq<Entry>, from: nat, p: nat, i: nat) {
    from <= i < |log| && log[i].sender == p
  }

  ghost predicate NothingSent(log: seq<Entry>, from: nat, p: nat) {
    forall i: nat :: !SentBy(log, from, p, i)
  }

  predicate IsRequest(talk: Talk, r: Request) {
    match talk
    case ToAll(text) => r == Tell(text)
    case ToOne(_, text) => r == Tell(text)
    case Offering(_) => r.Offer?
  }

  /** Sender p has at most one entry, and only for what it has to send. */
  ghost predicate SentAtMostOnce(log: seq<Entry>, from: nat, p: nat, talk: Talk) {
    && (forall i: nat :: SentBy(log, from, p, i) ==> IsRequest(talk, log[i].request))
    && forall i: nat, j: nat :: SentBy(log, from, p, i) && SentBy(log, from, p, j) ==> i == j
  }

  /** The signal was sent to process q. */
  predicate CommittedTo(status: Status, q: nat) {
    (status.Committed? || status.Handled? || status.Finished?) && status.to == q
  }

  /** Sender p has exactly one entry, for what it has to send, and that was committed to process q. */
  ghost predicate SentOnceTo(log: seq<Entry>, from: nat, p: nat, talk: Talk, q: nat) {
    && SentAtMostOnce(log, from, p, talk)
    && exists i: nat :: SentBy(log, from, p, i) && CommittedTo(log[i].status, q)
  }

  // ---- Where the process is in its talk ----

  datatype Phase = Silent | Asking | Past

  /** The process is at a place that it comes to in this talk. */
  predicate InTalk(talk: Talk, pc: Pc) {
    match talk
    case ToAll(text) =>
      (match pc
       case Login(_, greeting) => greeting == text
       case Logout(_, farewell) => farewell == text
       case Broadcast(_, t, _) => t == text
       case Send(_, to, r, Resume(next, t, _)) => r == Tell(text) && t == text && next == to + 1
       case Idle => true
       case Leave => true
       case Exited => true
       case _ => false)
    case ToOne(i, text) =>
      (match pc case Send(_, to, r, Shell) => to == i && r == Tell(text) case Idle => true case _ => false)
    case Offering(i) =>
      (match pc
       case Naming(_, target) => target == i
       case Send(_, to, Offer(_), OpenFifo) => to == i
       case OpenWrite(target, _) => target == i
       case Idle => true
       case _ => false)
  }

  /** What the process has done about id j by now. */
  function PhaseOf(talk: Talk, proc: Proc, j: nat): Phase {
    match talk
    case ToAll(_) =>
      if j == proc.id then Silent
      else
        (match proc.pc
         case Login(_, _) => Silent
         case Logout(_, _) => Silent
         case Broadcast(next, _, _) => if j < next then Past else Silent
         case Send(step, to, _, _) =>
           if j < to then Past else if j == to && !step.SemWait? then Asking else Silent
         case _ => Past)
    case ToOne(i, _) =>
      if j != i then Silent
      else (match proc.pc case Send(step, _, _, _) => if step.SemWait? then Silent else Asking case _ => Past)
    case Offering(i) =>
      if j != i then Silent
      else
        (match proc.pc
         case Naming(_, _) => Silent
         case Send(step, _, _, _) => if step.SemWait? then Silent else Asking
         case _ => Past)
  }

  /** While p holds j's lock its entry is the last one. */
  ghost predicate AsksNow(log: seq<Entry>, from: nat, p: nat, talk: Talk) {
    SentAtMostOnce(log, from, p, talk) && |log| > 0 && SentBy(log, from, p, |log| - 1)
  }

  /** `up` says that id j was in use in every state so far. */
  ghost predicate Told(s: State, talk: Talk, from: nat, p: nat, j: nat, up: bool)
    requires p < |s.procs| && j < |s.clients|
  {
    var log := s.clients[j].log;
    && InTalk(talk, s.procs[p].pc) && (talk.ToAll? && s.procs[p].pc.Send? ==> s.procs[p].pc.to != s.procs[p].id)
    && from <= |log|
    && match PhaseOf(talk, s.procs[p], j)
       case Silent => NothingSent(log, from, p)
       case Asking => AsksNow(log, from, p, talk) && (up ==> !s.procs[p].pc.send.PostBack?)
       case Past => SentAtMostOnce(log, from, p, talk) && (up ==> SentOnceTo(log, from, p, talk, s.clients[j].pid))
  }

  // ---- One step ----

  /** The history goes on without a new entry of p. */
  ghost predicate GoesOn(log: seq<Entry>, log': seq<Entry>, p: nat) {
    Extends(log, log') && (|log'| > |log| ==> log'[|log|].sender != p)
  }

  lemma SentStays(log: seq<Entry>, log': seq<Entry>, from: nat, p: nat, talk: Talk, q: nat)
    requires GoesOn(log, log', p) && from <= |log|
    ensures forall i: nat :: SentBy(log', from, p, i) <==> SentBy(log, from, p, i)
    ensures NothingSent(log, from, p) ==> NothingSent(log', from, p)
    ensures SentAtMostOnce(log, from, p, talk) ==> SentAtMostOnce(log', from, p, talk)
    ensures SentOnceTo(log, from, p, talk, q) ==> SentOnceTo(log', from, p, talk, q)
  {
    forall i: nat
      ensures SentBy(log', from, p, i) <==> SentBy(log, from, p, i)
    {
      if i < |log| { assert Advances(log[i], log'[i]); }
    }
    forall i: nat | SentBy(log, from, p, i)
      ensures log'[i].request == log[i].request
      ensures CommittedTo(log[i].status, q) ==> CommittedTo(log'[i].status, q)
    {
      assert Advances(log[i], log'[i]);
    }
    hide Extends, Advances, IsRequest;
    if SentOnceTo(log, from, p, talk, q) {
      var i: nat :| SentBy(log, from, p, i) && CommittedTo(log[i].status, q);
      assert SentBy(log', from, p, i) && CommittedTo(log'[i].status, q);
    }
  }

  lemma NoNewEntry(s: State, l: Label, j: nat)
    requires WellFormed(s) && Enabled(s, l) && !l.HandOver? && j < |s.clients|
    ensures |Next(s, l).clients| == |s.clients| && |Next(s, l).clients[j].log| == |s.clients[j].log|
  {
  }

  lemma NewEntryByTaker(s: State, p: nat, j: nat)
    requires WellFormed(s) && Enabled(s, HandOver(p)) && j < |s.clients|
    ensures |DoHandOver(s, p).clients| == |s.clients|
    ensures |DoHandOver(s, p).clients[j].log| > |s.clients[j].log| ==>
              DoHandOver(s, p).clients[j].log[|s.clients[j].log|].sender == p
  {
  }

  /** Only a process that takes the lock adds an entry, and for itself. */
  lemma NewEntryIsTakers(s: State, l: Label, j: nat)
    requires Safe(s) && Enabled(s, l) && 1 <= j < |s.clients|
    ensures |Next(s, l).clients| == |s.clients| && Extends(s.clients[j].log, Next(s, l).clients[j].log)
    ensures |Next(s, l).clients[j].log| > |s.clients[j].log| ==>
              l.HandOver? && Next(s, l).clients[j].log[|s.clients[j].log|].sender == l.p
  {
    StepExtends(s, l, j);
    assert WellFormed(s);
    hide Safe, Extends, WellFormed, Enabled;
    if l.HandOver? {
      NewEntryByTaker(s, l.p, j);
      hide DoHandOver;
    } else {
      hide Next;
      NoNewEntry(s, l, j);
    }
  }

  lemma LogInPid(s: State, p: nat, j: nat)
    requires WellFormed(s) && Ids(s) && Enabled(s, LogIn(p)) && j < |s.clients| && 1 <= j && s.clients[j].state
    ensures |DoLogIn(s, p).clients| == |s.clients| && DoLogIn(s, p).clients[j].pid == s.clients[j].pid
  {
    assert OwnedBy(s, j, s.clients[j].pid);
  }

  lemma OthersPid(s: State, l: Label, j: nat)
    requires WellFormed(s) && Enabled(s, l) && !l.LogIn? && j < |s.clients|
    ensures |Next(s, l).clients| == |s.clients| && Next(s, l).clients[j].pid == s.clients[j].pid
  {
  }

  /** An id that stays in use stays with its process. */
  lemma PidStays(s: State, l: Label, j: nat)
    requires Safe(s) && Enabled(s, l) && 1 <= j < |s.clients| && s.clients[j].state
    ensures |Next(s, l).clients| == |s.clients| && Next(s, l).clients[j].pid == s.clients[j].pid
  {
    assert WellFormed(s) && Ids(s);
    hide Safe, WellFormed, Ids, Enabled;
    if l.LogIn? {
      LogInPid(s, l.p, j);
      hide DoLogIn;
    } else {
      hide Next;
      OthersPid(s, l, j);
    }
  }

  lemma HolderIsLast(s: State, p: nat, j: nat)
    requires Safe(s) && p < |s.procs| && Holding(s.procs[p].pc) && s.procs[p].pc.to == j
    ensures 1 <= j < |s.clients|
    ensures LastEntry(s.clients[j].log) == Some(Entry(p, s.procs[p].id, s.procs[p].pc.request, Taken))
  {
    assert HolderOk(s, p);
    hide Mutex, Admission, Ids;
  }

  lemma AskingHolds(talk: Talk, proc: Proc, j: nat)
    requires InTalk(talk, proc.pc) && PhaseOf(talk, proc, j).Asking?
    ensures Holding(proc.pc) && proc.pc.to == j
  {
  }

  lemma LastStays(log: seq<Entry>, log': seq<Entry>, from: nat, p: nat, talk: Talk)
    requires GoesOn(log, log', p) && from <= |log| && AsksNow(log, from, p, talk)
    requires |log'| > 0 && log'[|log'| - 1].sender == p
    ensures AsksNow(log', from, p, talk)
  {
    SentStays(log, log', from, p, talk, 0);
  }

  /** Where p stands still, what is said of it goes on with the history. */
  lemma StaysTold(s: State, s': State, talk: Talk, from: nat, p: nat, j: nat, up: bool, up': bool)
    requires p < |s.procs| && p < |s'.procs| && SamePlace(s.procs[p], s'.procs[p])
    requires j < |s.clients| && j < |s'.clients| && GoesOn(s.clients[j].log, s'.clients[j].log, p)
    requires Told(s, talk, from, p, j, up) && (up' ==> up && s'.clients[j].pid == s.clients[j].pid)
    requires PhaseOf(talk, s.procs[p], j).Asking? ==>
               |s'.clients[j].log| > 0 && s'.clients[j].log[|s'.clients[j].log| - 1].sender == p
    ensures Told(s', talk, from, p, j, up')
  {
    var log, log' := s.clients[j].log, s'.clients[j].log;
    assert |log| <= |log'|;
    SentStays(log, log', from, p, talk, s.clients[j].pid);
    assert PhaseOf(talk, s'.procs[p], j) == PhaseOf(talk, s.procs[p], j);
    hide GoesOn, SentBy, InTalk, NothingSent, SentAtMostOnce, SentOnceTo, AsksNow, PhaseOf;
    if PhaseOf(talk, s.procs[p], j).Asking? { LastStays(log, log', from, p, talk); }
  }

  lemma AskingIsLast(s: State, s': State, talk: Talk, from: nat, p: nat, j: nat, up: bool)
    requires Safe(s') && p < |s.procs| && j < |s.clients| && Told(s, talk, from, p, j, up)
    requires p < |s'.procs| && SamePlace(s.procs[p], s'.procs[p]) && PhaseOf(talk, s.procs[p], j).Asking?
    ensures j < |s'.clients| && |s'.clients[j].log| > 0 && s'.clients[j].log[|s'.clients[j].log| - 1].sender == p
  {
    AskingHolds(talk, s.procs[p], j);
    hide Safe;
    HolderIsLast(s', p, j);
  }

  /** Steps that leave p's place alone keep what is said of it. */
  lemma OthersKeep(s: State, l: Label, talk: Talk, from: nat, p: nat, j: nat, up: bool, up': bool)
    requires Safe(s) && Enabled(s, l) && Safe(Next(s, l)) && p < |s.procs| && 1 <= j < |s.clients|
    requires Told(s, talk, from, p, j, up) && (up' ==> up && s.clients[j].state)
    requires p < |Next(s, l).procs| && SamePlace(s.procs[p], Next(s, l).procs[p]) && (l.HandOver? ==> l.p != p)
    ensures |Next(s, l).clients| == |s.clients| && Told(Next(s, l), talk, from, p, j, up')
  {
    assert WellFormed(s);
    hide *;
    NewEntryIsTakers(s, l, j);
    if s.clients[j].state { PidStays(s, l, j); }
    if PhaseOf(talk, s.procs[p], j).Asking? { AskingIsLast(s, Next(s, l), talk, from, p, j, up); }
    GoesOnIf(s.clients[j].log, Next(s, l).clients[j].log, p);
    StaysTold(s, Next(s, l), talk, from, p, j, up, up');
  }

  lemma GoesOnIf(log: seq<Entry>, log': seq<Entry>, p: nat)
    requires Extends(log, log') && (|log'| > |log| ==> log'[|log|].sender != p)
    ensures GoesOn(log, log', p)
  {
  }

  predicate SamePlace(a: Proc, b: Proc) {
    a.pc == b.pc && a.id == b.id
  }

  // ---- Steps of the sender ----

  lemma AddsOne(log: seq<Entry>, e: Entry, from: nat, p: nat, talk: Talk)
    requires NothingSent(log, from, p) && from <= |log| && e.sender == p && IsRequest(talk, e.request)
    ensures AsksNow(log + [e], from, p, talk)
  {
    forall i: nat | SentBy(log + [e], from, p, i)
      ensures i == |log|
    {
      assert i < |log| ==> SentBy(log, from, p, i);
    }
  }

  lemma TakeKeeps(s: State, talk: Talk, from: nat, p: nat, j: nat, up: bool)
    requires Safe(s) && p < |s.procs| && 1 <= j < |s.clients| && Told(s, talk, from, p, j, up)
    requires Enabled(s, HandOver(p)) && s.procs[p].pc.send.SemWait?
    ensures Told(DoTake(s, p), talk, from, p, j, up)
  {
    var s' := DoTake(s, p);
    var log, to := s.clients[j].log, s.procs[p].pc.to;
    var e := Entry(p, s.procs[p].id, s.procs[p].pc.request, Taken);
    assert InTalk(talk, s'.procs[p].pc) && IsRequest(talk, e.request);
    hide Safe, WellFormed, SentBy, NothingSent, SentAtMostOnce, SentOnceTo, AsksNow, InTalk;
    if j == to {
      assert s'.clients[j].log == log + [e];
      if PhaseOf(talk, s.procs[p], j).Silent? && PhaseOf(talk, s'.procs[p], j).Asking? {
        AddsOne(log, e, from, p, talk);
      }
    } else {
      assert s'.clients[j].log == log && s'.clients[j].pid == s.clients[j].pid;
    }
  }

  lemma FillKeeps(s: State, talk: Talk, from: nat, p: nat, j: nat, up: bool)
    requires WellFormed(s) && p < |s.procs| && 1 <= j < |s.clients| && Told(s, talk, from, p, j, up)
    requires Enabled(s, HandOver(p)) && s.procs[p].pc.send.Fill?
    ensures Told(DoFill(s, p), talk, from, p, j, up)
  {
    var s' := DoFill(s, p);
    assert s'.clients[j].log == s.clients[j].log && s'.clients[j].pid == s.clients[j].pid;
    assert InTalk(talk, s'.procs[p].pc) && PhaseOf(talk, s'.procs[p], j) == PhaseOf(talk, s.procs[p], j);
    hide WellFormed, NothingSent, SentAtMostOnce, SentOnceTo, AsksNow, InTalk, PhaseOf;
  }

  /** A mark on the last entry, which is p's. */
  lemma MarksOwn(log: seq<Entry>, status: Status, from: nat, p: nat, talk: Talk, q: nat)
    requires AsksNow(log, from, p, talk)
    ensures SentAtMostOnce(Mark(log, status), from, p, talk)
    ensures CommittedTo(status, q) ==> SentOnceTo(Mark(log, status), from, p, talk, q)
  {
    var log' := Mark(log, status);
    assert forall i: nat :: SentBy(log', from, p, i) <==> SentBy(log, from, p, i);
    assert forall i: nat :: i < |log| ==> log'[i].request == log[i].request;
    assert SentBy(log', from, p, |log| - 1);
  }

  lemma PostBackKeeps(s: State, talk: Talk, from: nat, p: nat, j: nat, up: bool)
    requires Safe(s) && p < |s.procs| && 1 <= j < |s.clients| && Told(s, talk, from, p, j, up)
    requires Enabled(s, HandOver(p)) && s.procs[p].pc.send.PostBack?
    ensures Told(DoPostBack(s, p), talk, from, p, j, up)
  {
    var s' := DoPostBack(s, p);
    var log, to := s.clients[j].log, s.procs[p].pc.to;
    assert InTalk(talk, s'.procs[p].pc);
    if PhaseOf(talk, s.procs[p], j).Asking? { MarksOwn(log, Returned, from, p, talk, 0); }
    hide Safe, WellFormed, NothingSent, SentAtMostOnce, SentOnceTo, AsksNow, InTalk;
    if j == to {
      assert s'.clients[j].log == Mark(log, Returned);
    } else {
      assert s'.clients[j].log == log && s'.clients[j].pid == s.clients[j].pid;
    }
  }

  /** The receiver is there: its signal is raised. */
  lemma SignalKeeps(s: State, talk: Talk, from: nat, p: nat, j: nat, up: bool)
    requires Safe(s) && p < |s.procs| && 1 <= j < |s.clients| && Told(s, talk, from, p, j, up)
    requires Enabled(s, HandOver(p)) && s.procs[p].pc.send.TestState? && s.clients[s.procs[p].pc.to].state
    ensures Told(DoKill(s, p), talk, from, p, j, up)
  {
    var s' := DoKill(s, p);
    var log, to, q := s.clients[j].log, s.procs[p].pc.to, s.clients[j].pid;
    assert WellFormed(s);
    assert SamePlace(s'.procs[p], SetPc(s, p, AfterSend(s.procs[p].pc.after, to, s.procs[p].pc.request)).procs[p]);
    assert InTalk(talk, s'.procs[p].pc);
    if PhaseOf(talk, s.procs[p], j).Asking? { MarksOwn(log, Committed(q), from, p, talk, q); }
    hide Safe, WellFormed, NothingSent, SentAtMostOnce, SentOnceTo, AsksNow, InTalk;
    if j == to {
      assert s'.clients[j].log == Mark(log, Committed(q)) && s'.clients[j].pid == q;
    } else {
      assert s'.clients[j] == s.clients[j];
    }
  }

  /** The receiver has left. */
  lemma NoSignalKeeps(s: State, talk: Talk, from: nat, p: nat, j: nat, up: bool)
    requires Safe(s) && p < |s.procs| && 1 <= j < |s.clients| && Told(s, talk, from, p, j, up)
    requires Enabled(s, HandOver(p)) && s.procs[p].pc.send.TestState? && !s.clients[s.procs[p].pc.to].state
    requires up ==> s.clients[j].state
    ensures Told(DoKill(s, p), talk, from, p, j, up)
  {
    var s' := DoKill(s, p);
    assert s'.clients == s.clients && InTalk(talk, s'.procs[p].pc);
    assert PhaseOf(talk, s'.procs[p], j) == PhaseOf(talk, s.procs[p], j);
    if PhaseOf(talk, s.procs[p], j).Asking? { AskingHolds(talk, s.procs[p], j); }
    hide Safe, WellFormed, NothingSent, SentAtMostOnce, SentOnceTo, AsksNow, InTalk, PhaseOf;
  }

  lemma HandOverKeeps(s: State, talk: Talk, from: nat, p: nat, j: nat, up: bool)
    requires Safe(s) && p < |s.procs| && 1 <= j < |s.clients| && Told(s, talk, from, p, j, up)
    requires Enabled(s, HandOver(p)) && (up ==> s.clients[j].state)
    ensures |DoHandOver(s, p).clients| == |s.clients| && |DoHandOver(s, p).procs| == |s.procs|
    ensures Told(DoHandOver(s, p), talk, from, p, j, up)
  {
    assert WellFormed(s);
    hide Safe, Told;
    match s.procs[p].pc.send
    case SemWait => TakeKeeps(s, talk, from, p, j, up);
    case Fill => FillKeeps(s, talk, from, p, j, up);
    case TestState =>
      if s.clients[s.procs[p].pc.to].state {
        SignalKeeps(s, talk, from, p, j, up);
      } else {
        NoSignalKeeps(s, talk, from, p, j, up);
      }
    case PostBack => PostBackKeeps(s, talk, from, p, j, up);
  }

  lemma LoopKeeps(s: State, talk: Talk, from: nat, p: nat, j: nat, up: bool)
    requires WellFormed(s) && p < |s.procs| && 1 <= j < |s.clients| && Told(s, talk, from, p, j, up)
    requires Enabled(s, Loop(p)) && (up ==> s.clients[j].state)
    ensures Told(DoLoop(s, p), talk, from, p, j, up)
  {
    var s' := DoLoop(s, p);
    assert InTalk(talk, s'.procs[p].pc);
    assert NothingSent(s.clients[j].log, from, p) ==> SentAtMostOnce(s.clients[j].log, from, p, talk);
    hide WellFormed, NothingSent, SentAtMostOnce, SentOnceTo, AsksNow, InTalk;
  }

  /** Login, logout and naming send nothing themselves. */
  lemma QuietKeeps(s: State, l: Label, talk: Talk, from: nat, p: nat, j: nat, up: bool)
    requires WellFormed(s) && Enabled(s, l) && p < |s.procs| && 1 <= j < |s.clients| && Told(s, talk, from, p, j, up)
    requires l == LogIn(p) || l == LogOut(p) || l == Name(p)
    requires |Next(s, l).clients| == |s.clients| && |Next(s, l).procs| == |s.procs|
    requires Next(s, l).clients[j].log == s.clients[j].log && (up ==> Next(s, l).clients[j].pid == s.clients[j].pid)
    ensures Told(Next(s, l), talk, from, p, j, up)
  {
    var s' := Next(s, l);
    assert InTalk(talk, s'.procs[p].pc) && PhaseOf(talk, s'.procs[p], j) == PhaseOf(talk, s.procs[p], j);
    hide NothingSent, SentAtMostOnce, SentOnceTo, AsksNow, InTalk, PhaseOf;
  }

  lemma QuietLeaves(s: State, l: Label, p: nat, j: nat)
    requires WellFormed(s) && Enabled(s, l) && p < |s.procs| && 1 <= j < |s.clients|
    requires l == LogIn(p) || l == LogOut(p) || l == Name(p)
    ensures |Next(s, l).clients| == |s.clients| && |Next(s, l).procs| == |s.procs|
    ensures Next(s, l).clients[j].log == s.clients[j].log
  {
  }

  /** The receiver opens the FIFO that p offered. */
  lemma MeetKeeps(s: State, q: nat, talk: Talk, from: nat, p: nat, j: nat, up: bool)
    requires Safe(s) && Enabled(s, Rendezvous(q, p)) && p < |s.procs| && 1 <= j < |s.clients|
    requires Told(s, talk, from, p, j, up)
    ensures |DoRendezvous(s, q, p).clients| == |s.clients| && |DoRendezvous(s, q, p).procs| == |s.procs|
    ensures Told(DoRendezvous(s, q, p), talk, from, p, j, up)
  {
    var s' := DoRendezvous(s, q, p);
    var log, log' := s.clients[j].log, s'.clients[j].log;
    assert WellFormed(s);
    NewEntryIsTakers(s, Rendezvous(q, p), j);
    SentStays(log, log', from, p, talk, s.clients[j].pid);
    assert s'.clients[j].pid == s.clients[j].pid;
    assert InTalk(talk, s'.procs[p].pc) && PhaseOf(talk, s'.procs[p], j) == PhaseOf(talk, s.procs[p], j);
    hide Safe, WellFormed, NothingSent, SentAtMostOnce, SentOnceTo, AsksNow, InTalk, PhaseOf, Extends, SentBy;
  }

  lemma WeakenTold(s: State, talk: Talk, from: nat, p: nat, j: nat, up: bool, up': bool)
    requires p < |s.procs| && j < |s.clients| && Told(s, talk, from, p, j, up) && (up' ==> up)
    ensures Told(s, talk, from, p, j, up')
  {
    hide InTalk, PhaseOf, NothingSent, SentAtMostOnce, SentOnceTo, AsksNow;
  }

  /** The step is one that p itself takes in a talk. */
  predicate IsOwn(l: Label, p: nat) {
    l == Loop(p) || l == HandOver(p) || l == LogIn(p) || l == LogOut(p) || l == Name(p)
      || (l.Rendezvous? && l.writer == p)
  }

  lemma OwnKeeps(s: State, l: Label, talk: Talk, from: nat, p: nat, j: nat, up: bool)
    requires Safe(s) && Enabled(s, l) && p < |s.procs| && 1 <= j < |s.clients| && IsOwn(l, p)
    requires Told(s, talk, from, p, j, up) && (up ==> s.clients[j].state)
    ensures p < |Next(s, l).procs| && |Next(s, l).clients| == |s.clients|
    ensures Told(Next(s, l), talk, from, p, j, up)
  {
    assert WellFormed(s);
    hide Safe, Told, WellFormed;
    if l.Loop? {
      LoopKeeps(s, talk, from, p, j, up);
    } else if l.HandOver? {
      HandOverKeeps(s, talk, from, p, j, up);
    } else if l.Rendezvous? {
      MeetKeeps(s, l.p, talk, from, p, j, up);
    } else {
      if s.clients[j].state { PidStays(s, l, j); }
      QuietLeaves(s, l, p, j);
      QuietKeeps(s, l, talk, from, p, j, up);
    }
  }

  lemma OthersHandOver(s: State, h: nat, p: nat)
    requires WellFormed(s) && Enabled(s, HandOver(h)) && p < |s.procs| && h != p
    ensures p < |DoHandOver(s, h).procs| && SamePlace(s.procs[p], DoHandOver(s, h).procs[p])
  {
  }

  /** No other step moves p, unless it begins something new. */
  lemma OthersLeave(s: State, l: Label, p: nat)
    requires WellFormed(s) && Enabled(s, l) && p < |s.procs| && !IsOwn(l, p) && !s.procs[p].pc.Idle?
    ensures p < |Next(s, l).procs| && SamePlace(s.procs[p], Next(s, l).procs[p]) && (l.HandOver? ==> l.p != p)
  {
    if l.HandOver? { OthersHandOver(s, l.p, p); }
    hide DoHandOver, WellFormed;
  }

  lemma StepTold(s: State, l: Label, talk: Talk, from: nat, p: nat, j: nat, up: bool, up': bool)
    requires Safe(s) && Enabled(s, l) && Safe(Next(s, l)) && p < |s.procs| && 1 <= j < |s.clients|
    requires !s.procs[p].pc.Idle?
    requires Told(s, talk, from, p, j, up) && (up' ==> up && s.clients[j].state)
    ensures p < |Next(s, l).procs| && |Next(s, l).clients| == |s.clients|
    ensures Told(Next(s, l), talk, from, p, j, up')
  {
    assert WellFormed(s);
    hide *;
    if IsOwn(l, p) {
      WeakenTold(s, talk, from, p, j, up, up');
      OwnKeeps(s, l, talk, from, p, j, up');
    } else {
      OthersLeave(s, l, p);
      OthersKeep(s, l, talk, from, p, j, up, up');
    }
  }

  // ---- Runs ----

  /** Id j is in use in every state from k to m. */
  ghost predicate InUse(states: seq<State>, k: nat, m: nat, j: nat) {
    forall i :: k <= i <= m && i < |states| ==> j < |states[i].clients| && states[i].clients[j].state
  }

  /** Process p is not back at its prompt in any state after k and before m. */
  ghost predicate Talks(states: seq<State>, k: nat, m: nat, p: nat) {
    forall i :: k < i < m && i < |states| ==> p < |states[i].procs| && !states[i].procs[p].pc.Idle?
  }

  lemma NextTold(n: nat, states: seq<State>, labels: seq<Label>, k: nat, m: nat, talk: Talk, from: nat, p: nat, j: nat)
    requires IsRun(n, states, labels) && FreshIds(states, labels) && k < m < |labels| && 1 <= j <= n
    requires m + 1 < |states| && p < |states[m].procs| && !states[m].procs[p].pc.Idle? && j < |states[m].clients|
    requires Told(states[m], talk, from, p, j, InUse(states, k, m, j))
    ensures p < |states[m + 1].procs| && j < |states[m + 1].clients|
    ensures Told(states[m + 1], talk, from, p, j, InUse(states, k, m + 1, j))
  {
    RunSafe(n, states, labels, m);
    RunSafe(n, states, labels, m + 1);
    assert states[m + 1] == Next(states[m], labels[m]) && Enabled(states[m], labels[m]);
    assert InUse(states, k, m + 1, j) ==> InUse(states, k, m, j) && states[m].clients[j].state;
    hide *;
    StepTold(states[m], labels[m], talk, from, p, j, InUse(states, k, m, j), InUse(states, k, m + 1, j));
  }

  lemma TalksOn(n: nat, states: seq<State>, labels: seq<Label>, k: nat, m: nat, p: nat)
    requires IsRun(n, states, labels) && k + 1 < m < |states| && Talks(states, k, m, p)
    ensures |states| == |labels| + 1 && Talks(states, k, m - 1, p)
    ensures p < |states[m - 1].procs| && !states[m - 1].procs[p].pc.Idle?
  {
  }

  lemma {:induction false} RunTold(n: nat, states: seq<State>, labels: seq<Label>, k: nat, m: nat, talk: Talk,
                                   from: nat,
                                   p: nat, j: nat)
    requires IsRun(n, states, labels) && FreshIds(states, labels) && k < m < |states| && 1 <= j <= n
    requires Talks(states, k, m, p) && p < |states[k + 1].procs| && j < |states[k + 1].clients|
    requires Told(states[k + 1], talk, from, p, j, InUse(states, k, k + 1, j))
    ensures p < |states[m].procs| && j < |states[m].clients|
    ensures Told(states[m], talk, from, p, j, InUse(states, k, m, j))
  {
    hide *;
    if m > k + 1 {
      TalksOn(n, states, labels, k, m, p);
      RunTold(n, states, labels, k, m - 1, talk, from, p, j);
      NextTold(n, states, labels, k, m - 1, talk, from, p, j);
    }
  }

  /** The log of id j had |from| entries before, and the talk begins. */
  lemma TalkBegins(s: State, s': State, talk: Talk, p: nat, j: nat, up: bool)
    requires p < |s'.procs| && j < |s.clients| && j < |s'.clients| && s'.clients[j].log == s.clients[j].log
    requires InTalk(talk, s'.procs[p].pc) && PhaseOf(talk, s'.procs[p], j).Silent?
    requires talk.ToAll? && s'.procs[p].pc.Send? ==> s'.procs[p].pc.to != s'.procs[p].id
    ensures Told(s', talk, |s.clients[j].log|, p, j, up)
  {
  }

  // ---- What a run sends ----

  /**
    What process p sent to id j between states k and m: nothing to its own id, to another one
    at most one entry, and if that was in use throughout, one that was committed to its process.
    */
  ghost predicate ReachesAll(states: seq<State>, k: nat, m: nat, p: nat, j: nat, talk: Talk)
    requires k < m < |states| && p < |states[m].procs| && j < |states[k].clients| && j < |states[m].clients|
  {
    var from, c := |states[k].clients[j].log|, states[m].clients[j];
    if j == states[m].procs[p].id then NothingSent(c.log, from, p)
    else SentAtMostOnce(c.log, from, p, talk) && (InUse(states, k, m, j) ==> SentOnceTo(c.log, from, p, talk, c.pid))
  }

  lemma ToldReachesAll(states: seq<State>, k: nat, m: nat, p: nat, j: nat, text: string)
    requires k < m < |states| && p < |states[m].procs| && j < |states[k].clients| && j < |states[m].clients|
    requires Told(states[m], ToAll(text), |states[k].clients[j].log|, p, j, InUse(states, k, m, j))
    requires states[m].procs[p].pc.Idle? || states[m].procs[p].pc.Exited?
    ensures ReachesAll(states, k, m, p, j, ToAll(text))
  {
    hide InUse, SentAtMostOnce, NothingSent, SentOnceTo;
  }

  lemma StepAt(n: nat, states: seq<State>, labels: seq<Label>, k: nat)
    requires IsRun(n, states, labels) && FreshIds(states, labels) && k < |labels|
    ensures |states| == |labels| + 1 && Safe(states[k]) && Enabled(states[k], labels[k])
    ensures states[k + 1] == Next(states[k], labels[k]) && |states[k].clients| == n + 1
            && |states[k + 1].clients| == n + 1
  {
    RunSafe(n, states, labels, k);
    RunSafe(n, states, labels, k + 1);
  }

  /**
    A yell: from the step in which the line is taken up until the process is back at its prompt,
    every other id is sent the text, as said above.
    */
  lemma YellReaches(n: nat, states: seq<State>, labels: seq<Label>, k: nat, m: nat, p: nat, text: string, j: nat)
    requires IsRun(n, states, labels) && FreshIds(states, labels) && k < |labels| && k < m < |states| && 1 <= j <= n
    requires labels[k] == Start(p, Yell(text)) && Talks(states, k, m, p)
    requires p < |states[m].procs| && states[m].procs[p].pc.Idle?
    ensures |states[k].clients| == n + 1 && |states[m].clients| == n + 1
    ensures ReachesAll(states, k, m, p, j, ToAll(text))
  {
    StepAt(n, states, labels, k);
    RunSafe(n, states, labels, m);
    TalkBegins(states[k], states[k + 1], ToAll(text), p, j, InUse(states, k, k + 1, j));
    hide Safe, Told, Next, Enabled, ReachesAll, InUse, FreshIds, IsRun;
    RunTold(n, states, labels, k, m, ToAll(text), |states[k].clients[j].log|, p, j);
    ToldReachesAll(states, k, m, p, j, text);
  }

  /** A newcomer's greeting: from its connection until it is at its prompt for the first time. */
  lemma GreetingReaches(n: nat, states: seq<State>, labels: seq<Label>, k: nat, m: nat, greeting: string, j: nat)
    requires IsRun(n, states, labels) && FreshIds(states, labels) && k < |labels| && k < m < |states| && 1 <= j <= n
    requires labels[k] == Accept(greeting) && Talks(states, k, m, |states[k].procs|)
    requires |states[k].procs| < |states[m].procs| && states[m].procs[|states[k].procs|].pc.Idle?
    ensures |states[k].clients| == n + 1 && |states[m].clients| == n + 1
    ensures ReachesAll(states, k, m, |states[k].procs|, j, ToAll(greeting))
  {
    var p := |states[k].procs|;
    StepAt(n, states, labels, k);
    RunSafe(n, states, labels, m);
    TalkBegins(states[k], states[k + 1], ToAll(greeting), p, j, InUse(states, k, k + 1, j));
    hide Safe, Told, Next, Enabled, ReachesAll, InUse, FreshIds, IsRun;
    RunTold(n, states, labels, k, m, ToAll(greeting), |states[k].clients[j].log|, p, j);
    ToldReachesAll(states, k, m, p, j, greeting);
  }

  /** On its way out: a process does not come back to its prompt. */
  predicate OnTheWayOut(pc: Pc) {
    match pc
    case Logout(_, _) => true
    case Broadcast(_, _, leaving) => leaving
    case Send(_, _, _, after) => Leaving(after)
    case Leave => true
    case Exited => true
    case _ => false
  }

  lemma StaysOnTheWayOut(s: State, l: Label, p: nat)
    requires WellFormed(s) && Enabled(s, l) && p < |s.procs| && OnTheWayOut(s.procs[p].pc)
    ensures p < |Next(s, l).procs| && OnTheWayOut(Next(s, l).procs[p].pc)
  {
    if l == HandOver(p) {
      HandOverWayOut(s, p);
    } else if !IsOwn(l, p) {
      OthersLeave(s, l, p);
    } else {
      assert !l.Rendezvous?;
    }
    hide WellFormed, DoHandOver;
  }

  lemma HandOverWayOut(s: State, p: nat)
    requires WellFormed(s) && Enabled(s, HandOver(p)) && OnTheWayOut(s.procs[p].pc)
    ensures p < |DoHandOver(s, p).procs| && OnTheWayOut(DoHandOver(s, p).procs[p].pc)
  {
    hide WellFormed;
  }

  lemma {:induction false} LeavesForGood(n: nat, states: seq<State>, labels: seq<Label>, k: nat, m: nat, p: nat)
    requires IsRun(n, states, labels) && k <= m < |states| && p < |states[k].procs|
             && OnTheWayOut(states[k].procs[p].pc)
    ensures p < |states[m].procs| && OnTheWayOut(states[m].procs[p].pc)
  {
    if m > k {
      LeavesForGood(n, states, labels, k, m - 1, p);
      assert states[m] == Next(states[m - 1], labels[m - 1]);
      hide OnTheWayOut;
      StaysOnTheWayOut(states[m - 1], labels[m - 1], p);
    }
  }

  lemma WayOutTalks(n: nat, states: seq<State>, labels: seq<Label>, k: nat, m: nat, p: nat)
    requires IsRun(n, states, labels) && k < m < |states|
    requires p < |states[k + 1].procs| && OnTheWayOut(states[k + 1].procs[p].pc)
    ensures Talks(states, k, m, p)
  {
    hide IsRun;
    forall i | k < i < m
      ensures p < |states[i].procs| && !states[i].procs[p].pc.Idle?
    {
      LeavesForGood(n, states, labels, k + 1, i, p);
    }
  }

  /** A farewell: from the step in which the user quits until the process has exited. */
  lemma FarewellReaches(n: nat, states: seq<State>, labels: seq<Label>, k: nat, m: nat, p: nat, farewell: string,
                        j: nat)
    requires IsRun(n, states, labels) && FreshIds(states, labels) && k < |labels| && k < m < |states| && 1 <= j <= n
    requires labels[k] == Start(p, Quit(farewell)) && p < |states[m].procs| && states[m].procs[p].pc.Exited?
    ensures |states[k].clients| == n + 1 && |states[m].clients| == n + 1
    ensures ReachesAll(states, k, m, p, j, ToAll(farewell))
  {
    StepAt(n, states, labels, k);
    RunSafe(n, states, labels, m);
    TalkBegins(states[k], states[k + 1], ToAll(farewell), p, j, InUse(states, k, k + 1, j));
    WayOutTalks(n, states, labels, k, m, p);
    hide Safe, Talks, Told, Next, Enabled, ReachesAll, InUse, FreshIds, IsRun, OnTheWayOut;
    RunTold(n, states, labels, k, m, ToAll(farewell), |states[k].clients[j].log|, p, j);
    ToldReachesAll(states, k, m, p, j, farewell);
  }

  /**
    What process p sent to id j between states k and m, when it had to send something to one
    id only: nothing to another id, and to that id, if it was in use throughout, exactly one
    entry, which was committed to its process.
    */
  ghost predicate ReachesOne(states: seq<State>, k: nat, m: nat, p: nat, j: nat, to: nat, talk: Talk)
    requires k < m < |states| && j < |states[k].clients| && j < |states[m].clients|
  {
    var from, c := |states[k].clients[j].log|, states[m].clients[j];
    if j != to then NothingSent(c.log, from, p)
    else SentAtMostOnce(c.log, from, p, talk) && (InUse(states, k, m, j) ==> SentOnceTo(c.log, from, p, talk, c.pid))
  }

  lemma ToldReachesOne(states: seq<State>, k: nat, m: nat, p: nat, j: nat, to: nat, talk: Talk)
    requires k < m < |states| && p < |states[m].procs| && j < |states[k].clients| && j < |states[m].clients|
    requires talk == Offering(to) || (talk.ToOne? && talk.to == to)
    requires Told(states[m], talk, |states[k].clients[j].log|, p, j, InUse(states, k, m, j))
    requires states[m].procs[p].pc.Idle?
    ensures ReachesOne(states, k, m, p, j, to, talk)
  {
    hide InUse, SentAtMostOnce, NothingSent, SentOnceTo;
  }

  /** A line that is answered with an error sends nothing. */
  lemma ErrorReachesOne(states: seq<State>, k: nat, m: nat, p: nat, j: nat, to: nat, talk: Talk)
    requires k < m < |states| && p < |states[k + 1].procs| && j < |states[k].clients| && j < |states[m].clients|
    requires states[k + 1].clients == states[k].clients && states[k + 1].procs[p].pc.Idle? && Talks(states, k, m, p)
    requires j == to ==> !states[k].clients[j].state
    ensures ReachesOne(states, k, m, p, j, to, talk)
  {
    assert m == k + 1;
  }

  /** A tell: the id that it names is sent the text, and no other. */
  lemma TellReaches(n: nat, states: seq<State>, labels: seq<Label>, k: nat, m: nat, p: nat, to: nat, text: string,
                    j: nat)
    requires IsRun(n, states, labels) && FreshIds(states, labels) && k < |labels| && k < m < |states| && 1 <= j <= n
    requires labels[k] == Start(p, TellTo(to, text)) && Talks(states, k, m, p)
    requires p < |states[m].procs| && states[m].procs[p].pc.Idle?
    ensures |states[k].clients| == n + 1 && |states[m].clients| == n + 1
    ensures ReachesOne(states, k, m, p, j, to, ToOne(to, text))
  {
    StepAt(n, states, labels, k);
    RunSafe(n, states, labels, m);
    var s, talk := states[k], ToOne(to, text);
    if to > n || !s.clients[to].state {
      assert states[k + 1] == s;
      hide Safe, Next, Enabled, ReachesOne, FreshIds, IsRun;
      ErrorReachesOne(states, k, m, p, j, to, talk);
    } else {
      TalkBegins(s, states[k + 1], talk, p, j, InUse(states, k, k + 1, j));
      hide Safe, Told, Next, Enabled, ReachesOne, InUse, FreshIds, IsRun;
      RunTold(n, states, labels, k, m, talk, |s.clients[j].log|, p, j);
      ToldReachesOne(states, k, m, p, j, to, talk);
    }
  }

  lemma PipeBegins(s: State, p: nat, to: nat, j: nat, up: bool)
    requires WellFormed(s) && Enabled(s, Start(p, PipeTo(to))) && 1 <= j < |s.clients|
    ensures var s' := Next(s, Start(p, PipeTo(to)));
            if s' == s then
              to == 0 || to >= |s.clients| || !s.clients[to].state || s.procs[p].id in s.clients[to].userPipe
            else
              && p < |s'.procs| && |s'.clients| == |s.clients| && s.procs[p].id !in s.clients[to].userPipe
              && Told(s', Offering(to), |s.clients[j].log|, p, j, up)
  {
    var s' := Next(s, Start(p, PipeTo(to)));
    hide WellFormed, Told;
    if s' != s { TalkBegins(s, s', Offering(to), p, j, up); }
  }

  /** `>id` without a pipe to that id yet: the id that it names is sent an offer, and no other. */
  lemma PipeReaches(n: nat, states: seq<State>, labels: seq<Label>, k: nat, m: nat, p: nat, to: nat, j: nat)
    requires IsRun(n, states, labels) && FreshIds(states, labels) && k < |labels| && k < m < |states| && 1 <= j <= n
    requires labels[k] == Start(p, PipeTo(to)) && Talks(states, k, m, p)
    requires p < |states[m].procs| && states[m].procs[p].pc.Idle?
    ensures |states[k].clients| == n + 1 && |states[m].clients| == n + 1 && p < |states[k].procs|
    ensures if 1 <= to <= n && states[k].procs[p].id in states[k].clients[to].userPipe
            then NothingSent(states[m].clients[j].log, |states[k].clients[j].log|, p)
            else ReachesOne(states, k, m, p, j, to, Offering(to))
  {
    StepAt(n, states, labels, k);
    RunSafe(n, states, labels, m);
    var s, talk := states[k], Offering(to);
    PipeBegins(s, p, to, j, InUse(states, k, k + 1, j));
    if states[k + 1] == s {
      assert m == k + 1;
      hide Safe, Next, FreshIds, IsRun, Told, InUse, SentAtMostOnce, SentOnceTo;
    } else {
      hide Safe, Told, Next, Enabled, ReachesOne, InUse, FreshIds, IsRun;
      RunTold(n, states, labels, k, m, talk, |s.clients[j].log|, p, j);
      ToldReachesOne(states, k, m, p, j, to, talk);
    }
  }
}
