/**
  Two clients that offer each other a FIFO at once: a run of the multi-process server from its
  start that ends with both of them waiting for the other for ever.
  */
module HandoffCrossed {
  import opened Handoff
  import opened HandoffAdmission
  import opened HandoffKnots
  import opened HandoffPipes
  import opened HandoffReach
  import opened HandoffTokens

  function Calm(id: nat, pc: Pc): Proc {
    Proc(id, pc, false, {}, NoHandler)
  }

  /** A state of a server for two clients. */
  function At(one: Client, two: Client, procs: seq<Proc>, parent: Parent, clientNum: int, minId: nat, loginPosts: nat,
              lock2: nat, fifoLock: nat, created: seq<(nat, nat)>): State {
    State([InitialClient(0), one, two], procs, parent, clientNum, minId, loginPosts, lock2, fifoLock, created)
  }

  predicate SameClient(a: Client, b: Client) {
    && a.state == b.state && a.pid == b.pid && a.lock == b.lock && a.mailbox == b.mailbox && a.fromId == b.fromId
    && a.userPipe == b.userPipe && a.log == b.log && a.screen == b.screen
  }

  predicate SameProc(a: Proc, b: Proc) {
    a.id == b.id && a.pc == b.pc && a.stopped == b.stopped && a.pending == b.pending && a.handler == b.handler
  }

  /** The same state, part by part. */
  predicate Same(a: State, b: State) {
    && |a.clients| == |b.clients| == 3 && |a.procs| == |b.procs| <= 4
    && SameClient(a.clients[0], b.clients[0]) && SameClient(a.clients[1], b.clients[1])
    && SameClient(a.clients[2], b.clients[2])
    && (forall p :: 0 <= p < |a.procs| ==> SameProc(a.procs[p], b.procs[p]))
    && a.parent == b.parent && a.clientNum == b.clientNum && a.minId == b.minId && a.loginPosts == b.loginPosts
    && a.lock2 == b.lock2 && a.fifoLock == b.fifoLock && a.created == b.created
  }

  lemma SameIsEqual(a: State, b: State)
    requires Same(a, b)
    ensures a == b
  {
    assert a.clients == b.clients;
    assert a.procs == b.procs;
  }

  lemma Arrives(s: State, l: Label, s': State)
    requires WellFormed(s) && Enabled(s, l) && FreshId(s, l) && Same(Next(s, l), s')
    ensures IsStep(s, l, s') && WellFormed(s')
  {
    SameIsEqual(Next(s, l), s');
    StepWellFormed(s, l);
    hide WellFormed, Enabled, Next, Same;
  }

  const ONE_ABSENT := InitialClient(1)
  const TWO_ABSENT := InitialClient(2)
  const ONE_PRESENT := ONE_ABSENT.(state := true)
  const TWO_PRESENT := TWO_ABSENT.(state := true, pid := 1)
  const ONE_TAKEN := ONE_PRESENT.(lock := 0, log := [Entry(1, 2, Tell(""), Taken)])
  const ONE_ALERTED := ONE_TAKEN.(log := [Entry(1, 2, Tell(""), Committed(0))])
  const ONE_READ := ONE_ALERTED.(log := [Entry(1, 2, Tell(""), Handled(0, Written))], screen := [Line(0,
    Words(""))])
  const ONE_TOLD := ONE_READ.(lock := 1, log := [Entry(1, 2, Tell(""), Finished(0, Written))])
  const TWO_CLAIMED := TWO_PRESENT.(lock := 0, log := [Entry(0, 1, Offer(1), Taken)])
  const TWO_NAMED := TWO_CLAIMED.(mailbox := Path(1), fromId := 1)
  const ONE_CLAIMED := ONE_TOLD.(lock := 0, log := [Entry(1, 2, Tell(""), Finished(0, Written)), Entry(1, 2,
    Offer(2), Taken)])
  const ONE_NAMED := ONE_CLAIMED.(mailbox := Path(2), fromId := 2)
  const TWO_OFFERED := TWO_NAMED.(log := [Entry(0, 1, Offer(1), Committed(1))])
  const ONE_OFFERED := ONE_NAMED.(log := [Entry(1, 2, Tell(""), Finished(0, Written)), Entry(1, 2, Offer(2),
    Committed(0))])

  /** Client 1 logs in. */
  function FirstIn(k: nat): State
    requires k <= 6
  {
    match k
    case 0 => At(ONE_ABSENT, TWO_ABSENT, [], Accepting, 0, 1, 0, 1, 1, [])
    case 1 => At(ONE_ABSENT, TWO_ABSENT, [Calm(0, Login(AskLock2, ""))], AwaitLogin, 0, 1, 0, 1, 1, [])
    case 2 => At(ONE_ABSENT, TWO_ABSENT, [Calm(1, Login(AddOne, ""))], AwaitLogin, 0, 1, 0, 0, 1, [])
    case 3 => At(ONE_ABSENT, TWO_ABSENT, [Calm(1, Login(Publish, ""))], AwaitLogin, 1, 1, 0, 0, 1, [])
    case 4 => At(ONE_PRESENT, TWO_ABSENT, [Calm(1, Login(Rescan, ""))], AwaitLogin, 1, 1, 0, 0, 1, [])
    case 5 => At(ONE_PRESENT, TWO_ABSENT, [Calm(1, Login(FreeLock2, ""))], AwaitLogin, 1, 2, 1, 0, 1, [])
    case _ => At(ONE_PRESENT, TWO_ABSENT, [Calm(1, Broadcast(1, "", false))], AwaitLogin, 1, 2, 1, 1, 1, [])
  }

  function FirstInStep(k: nat): Label {
    if k == 0 then Accept("") else LogIn(0)
  }

  lemma FirstInSteps(k: nat)
    requires 0 <= k < 6 && WellFormed(FirstIn(k))
    ensures IsStep(FirstIn(k), FirstInStep(k), FirstIn(k + 1)) && WellFormed(FirstIn(k + 1))
  {
    Arrives(FirstIn(k), FirstInStep(k), FirstIn(k + 1));
  }

  /** It finds nobody to greet, and the parent waits for the next connection. */
  function FirstReady(k: nat): State
    requires k <= 6
  {
    match k
    case 0 => At(ONE_PRESENT, TWO_ABSENT, [Calm(1, Broadcast(1, "", false))], AwaitLogin, 1, 2, 1, 1, 1, [])
    case 1 => At(ONE_PRESENT, TWO_ABSENT, [Calm(1, Broadcast(1, "", false))], Recheck, 1, 2, 0, 1, 1, [])
    case 2 => At(ONE_PRESENT, TWO_ABSENT, [Calm(1, Broadcast(1, "", false))], Accepting, 1, 2, 0, 1, 1, [])
    case 3 => At(ONE_PRESENT, TWO_ABSENT, [Calm(1, Broadcast(2, "", false))], Accepting, 1, 2, 0, 1, 1, [])
    case 4 => At(ONE_PRESENT, TWO_ABSENT, [Calm(1, Broadcast(3, "", false))], Accepting, 1, 2, 0, 1, 1, [])
    case 5 => At(ONE_PRESENT, TWO_ABSENT, [Calm(1, Idle)], Accepting, 1, 2, 0, 1, 1, [])
    case _ => At(ONE_PRESENT, TWO_ABSENT, [Calm(1, Idle), Calm(0, Login(AskLock2, ""))], AwaitLogin, 1, 2, 0, 1, 1,
      [])
  }

  function FirstReadyStep(k: nat): Label {
    if k == 0 then ParentWakes else if k == 1 then ParentRechecks else if k <= 4 then Loop(0) else Accept("")
  }

  lemma FirstReadySteps(k: nat)
    requires 0 <= k < 6 && WellFormed(FirstReady(k))
    ensures IsStep(FirstReady(k), FirstReadyStep(k), FirstReady(k + 1)) && WellFormed(FirstReady(k + 1))
  {
    Arrives(FirstReady(k), FirstReadyStep(k), FirstReady(k + 1));
  }

  /** Client 2 logs in. */
  function SecondIn(k: nat): State
    requires k <= 5
  {
    match k
    case 0 => At(ONE_PRESENT, TWO_ABSENT, [Calm(1, Idle), Calm(0, Login(AskLock2, ""))], AwaitLogin, 1, 2, 0, 1, 1,
      [])
    case 1 => At(ONE_PRESENT, TWO_ABSENT, [Calm(1, Idle), Calm(2, Login(AddOne, ""))], AwaitLogin, 1, 2, 0, 0, 1,
      [])
    case 2 => At(ONE_PRESENT, TWO_ABSENT, [Calm(1, Idle), Calm(2, Login(Publish, ""))], AwaitLogin, 2, 2, 0, 0, 1,
      [])
    case 3 => At(ONE_PRESENT, TWO_PRESENT, [Calm(1, Idle), Calm(2, Login(Rescan, ""))], AwaitLogin, 2, 2, 0, 0, 1,
      [])
    case 4 => At(ONE_PRESENT, TWO_PRESENT, [Calm(1, Idle), Calm(2, Login(FreeLock2, ""))], AwaitLogin, 2, 2, 1, 0,
      1, [])
    case _ => At(ONE_PRESENT, TWO_PRESENT, [Calm(1, Idle), Calm(2, Broadcast(1, "", false))], AwaitLogin, 2, 2, 1,
      1, 1, [])
  }

  function SecondInStep(k: nat): Label {
    LogIn(1)
  }

  lemma SecondInSteps(k: nat)
    requires 0 <= k < 5 && WellFormed(SecondIn(k))
    ensures IsStep(SecondIn(k), SecondInStep(k), SecondIn(k + 1)) && WellFormed(SecondIn(k + 1))
  {
    Arrives(SecondIn(k), SecondInStep(k), SecondIn(k + 1));
  }

  /** It tells client 1. */
  function Greeting(k: nat): State
    requires k <= 4
  {
    match k
    case 0 => At(ONE_PRESENT, TWO_PRESENT, [Calm(1, Idle), Calm(2, Broadcast(1, "", false))], AwaitLogin, 2, 2, 1,
      1, 1, [])
    case 1 => At(ONE_PRESENT, TWO_PRESENT, [Calm(1, Idle), Calm(2, Send(SemWait, 1, Tell(""), Resume(2, "",
      false)))], AwaitLogin, 2, 2, 1, 1, 1, [])
    case 2 => At(ONE_TAKEN, TWO_PRESENT, [Calm(1, Idle), Calm(2, Send(Fill, 1, Tell(""), Resume(2, "", false)))],
      AwaitLogin, 2, 2, 1, 1, 1, [])
    case 3 => At(ONE_TAKEN, TWO_PRESENT, [Calm(1, Idle), Calm(2, Send(TestState, 1, Tell(""), Resume(2, "",
      false)))], AwaitLogin, 2, 2, 1, 1, 1, [])
    case _ => At(ONE_ALERTED, TWO_PRESENT, [Proc(1, Idle, false, {Usr1}, NoHandler), Calm(2, Broadcast(2, "",
      false))], AwaitLogin, 2, 2, 1, 1, 1, [])
  }

  function GreetingStep(k: nat): Label {
    if k == 0 then Loop(1) else HandOver(1)
  }

  lemma GreetingStepsA(k: nat)
    requires 0 <= k < 2 && WellFormed(Greeting(k))
    ensures IsStep(Greeting(k), GreetingStep(k), Greeting(k + 1)) && WellFormed(Greeting(k + 1))
  {
    Arrives(Greeting(k), GreetingStep(k), Greeting(k + 1));
  }

  lemma GreetingStepsB(k: nat)
    requires 2 <= k < 4 && WellFormed(Greeting(k))
    ensures IsStep(Greeting(k), GreetingStep(k), Greeting(k + 1)) && WellFormed(Greeting(k + 1))
  {
    Arrives(Greeting(k), GreetingStep(k), Greeting(k + 1));
  }

  /** Client 1 writes that, and both are at their prompts. */
  function Reading(k: nat): State
    requires k <= 5
  {
    match k
    case 0 => At(ONE_ALERTED, TWO_PRESENT, [Proc(1, Idle, false, {Usr1}, NoHandler), Calm(2, Broadcast(2, "",
      false))], AwaitLogin, 2, 2, 1, 1, 1, [])
    case 1 => At(ONE_ALERTED, TWO_PRESENT, [Proc(1, Idle, false, {}, Running(Usr1)), Calm(2, Broadcast(2, "",
      false))], AwaitLogin, 2, 2, 1, 1, 1, [])
    case 2 => At(ONE_READ, TWO_PRESENT, [Proc(1, Idle, false, {}, Posting), Calm(2, Broadcast(2, "", false))],
      AwaitLogin, 2, 2, 1, 1, 1, [])
    case 3 => At(ONE_TOLD, TWO_PRESENT, [Calm(1, Idle), Calm(2, Broadcast(2, "", false))], AwaitLogin, 2, 2, 1, 1,
      1, [])
    case 4 => At(ONE_TOLD, TWO_PRESENT, [Calm(1, Idle), Calm(2, Broadcast(3, "", false))], AwaitLogin, 2, 2, 1, 1,
      1, [])
    case _ => At(ONE_TOLD, TWO_PRESENT, [Calm(1, Idle), Calm(2, Idle)], AwaitLogin, 2, 2, 1, 1, 1, [])
  }

  function ReadingStep(k: nat): Label {
    if k == 0 then Deliver(0, Usr1) else if k == 1 then Handle(0) else if k == 2 then PostMailbox(0)
    else Loop(1)
  }

  lemma ReadingStepsA(k: nat)
    requires 0 <= k < 2 && WellFormed(Reading(k))
    ensures IsStep(Reading(k), ReadingStep(k), Reading(k + 1)) && WellFormed(Reading(k + 1))
  {
    Arrives(Reading(k), ReadingStep(k), Reading(k + 1));
  }

  lemma ReadingStepsB(k: nat)
    requires 2 <= k < 5 && WellFormed(Reading(k))
    ensures IsStep(Reading(k), ReadingStep(k), Reading(k + 1)) && WellFormed(Reading(k + 1))
  {
    Arrives(Reading(k), ReadingStep(k), Reading(k + 1));
  }

  /** Client 1 types `>2` and fills the mailbox of client 2. */
  function FirstOffers(k: nat): State
    requires k <= 5
  {
    match k
    case 0 => At(ONE_TOLD, TWO_PRESENT, [Calm(1, Idle), Calm(2, Idle)], AwaitLogin, 2, 2, 1, 1, 1, [])
    case 1 => At(ONE_TOLD, TWO_PRESENT, [Calm(1, Naming(false, 2)), Calm(2, Idle)], AwaitLogin, 2, 2, 1, 1, 1, [])
    case 2 => At(ONE_TOLD, TWO_PRESENT, [Calm(1, Naming(true, 2)), Calm(2, Idle)], AwaitLogin, 2, 2, 1, 1, 0, [])
    case 3 => At(ONE_TOLD, TWO_PRESENT, [Calm(1, Send(SemWait, 2, Offer(1), OpenFifo)), Calm(2, Idle)], AwaitLogin,
      2, 2, 1, 1, 1, [(1, 2)])
    case 4 => At(ONE_TOLD, TWO_CLAIMED, [Calm(1, Send(Fill, 2, Offer(1), OpenFifo)), Calm(2, Idle)], AwaitLogin, 2,
      2, 1, 1, 1, [(1, 2)])
    case _ => At(ONE_TOLD, TWO_NAMED, [Calm(1, Send(TestState, 2, Offer(1), OpenFifo)), Calm(2, Idle)], AwaitLogin,
      2, 2, 1, 1, 1, [(1, 2)])
  }

  function FirstOffersStep(k: nat): Label {
    if k == 0 then Start(0, PipeTo(2)) else if k <= 2 then Name(0) else HandOver(0)
  }

  lemma FirstOffersStepsA(k: nat)
    requires 0 <= k < 2 && WellFormed(FirstOffers(k))
    ensures IsStep(FirstOffers(k), FirstOffersStep(k), FirstOffers(k + 1)) && WellFormed(FirstOffers(k + 1))
  {
    Arrives(FirstOffers(k), FirstOffersStep(k), FirstOffers(k + 1));
  }

  lemma FirstOffersStepsB(k: nat)
    requires k == 2 && WellFormed(FirstOffers(2))
    ensures IsStep(FirstOffers(2), FirstOffersStep(2), FirstOffers(3)) && WellFormed(FirstOffers(3))
  {
    Arrives(FirstOffers(2), FirstOffersStep(2), FirstOffers(3));
  }

  lemma FirstOffersStepsC(k: nat)
    requires 3 <= k < 5 && WellFormed(FirstOffers(k))
    ensures IsStep(FirstOffers(k), FirstOffersStep(k), FirstOffers(k + 1)) && WellFormed(FirstOffers(k + 1))
  {
    Arrives(FirstOffers(k), FirstOffersStep(k), FirstOffers(k + 1));
  }

  /** Client 2 types `>1` and fills the mailbox of client 1. */
  function SecondOffers(k: nat): State
    requires k <= 5
  {
    match k
    case 0 => At(ONE_TOLD, TWO_NAMED, [Calm(1, Send(TestState, 2, Offer(1), OpenFifo)), Calm(2, Idle)], AwaitLogin,
      2, 2, 1, 1, 1, [(1, 2)])
    case 1 => At(ONE_TOLD, TWO_NAMED, [Calm(1, Send(TestState, 2, Offer(1), OpenFifo)), Calm(2, Naming(false, 1))],
      AwaitLogin, 2, 2, 1, 1, 1, [(1, 2)])
    case 2 => At(ONE_TOLD, TWO_NAMED, [Calm(1, Send(TestState, 2, Offer(1), OpenFifo)), Calm(2, Naming(true, 1))],
      AwaitLogin, 2, 2, 1, 1, 0, [(1, 2)])
    case 3 => At(ONE_TOLD, TWO_NAMED, [Calm(1, Send(TestState, 2, Offer(1), OpenFifo)), Calm(2, Send(SemWait, 1,
      Offer(2), OpenFifo))], AwaitLogin, 2, 2, 1, 1, 1, [(1, 2), (2, 1)])
    case 4 => At(ONE_CLAIMED, TWO_NAMED, [Calm(1, Send(TestState, 2, Offer(1), OpenFifo)), Calm(2, Send(Fill, 1,
      Offer(2), OpenFifo))], AwaitLogin, 2, 2, 1, 1, 1, [(1, 2), (2, 1)])
    case _ => At(ONE_NAMED, TWO_NAMED, [Calm(1, Send(TestState, 2, Offer(1), OpenFifo)), Calm(2, Send(TestState, 1,
      Offer(2), OpenFifo))], AwaitLogin, 2, 2, 1, 1, 1, [(1, 2), (2, 1)])
  }

  function SecondOffersStep(k: nat): Label {
    if k == 0 then Start(1, PipeTo(1)) else if k <= 2 then Name(1) else HandOver(1)
  }

  lemma SecondOffersStepsA(k: nat)
    requires 0 <= k < 2 && WellFormed(SecondOffers(k))
    ensures IsStep(SecondOffers(k), SecondOffersStep(k), SecondOffers(k + 1)) && WellFormed(SecondOffers(k + 1))
  {
    Arrives(SecondOffers(k), SecondOffersStep(k), SecondOffers(k + 1));
  }

  lemma SecondOffersStepsB(k: nat)
    requires k == 2 && WellFormed(SecondOffers(2))
    ensures IsStep(SecondOffers(2), SecondOffersStep(2), SecondOffers(3)) && WellFormed(SecondOffers(3))
  {
    Arrives(SecondOffers(2), SecondOffersStep(2), SecondOffers(3));
  }

  lemma SecondOffersStepsC(k: nat)
    requires k == 3 && WellFormed(SecondOffers(3))
    ensures IsStep(SecondOffers(3), SecondOffersStep(3), SecondOffers(4)) && WellFormed(SecondOffers(4))
  {
    Arrives(SecondOffers(3), SecondOffersStep(3), SecondOffers(4));
  }

  lemma SecondOffersStepsD(k: nat)
    requires k == 4 && WellFormed(SecondOffers(4))
    ensures IsStep(SecondOffers(4), SecondOffersStep(4), SecondOffers(5)) && WellFormed(SecondOffers(5))
  {
    Arrives(SecondOffers(4), SecondOffersStep(4), SecondOffers(5));
  }

  /** Both signal their offers. */
  function BothSignal(k: nat): State
    requires k <= 2
  {
    match k
    case 0 => At(ONE_NAMED, TWO_NAMED, [Calm(1, Send(TestState, 2, Offer(1), OpenFifo)), Calm(2, Send(TestState, 1,
      Offer(2), OpenFifo))], AwaitLogin, 2, 2, 1, 1, 1, [(1, 2), (2, 1)])
    case 1 => At(ONE_NAMED, TWO_OFFERED, [Calm(1, OpenWrite(2, 1)), Proc(2, Send(TestState, 1, Offer(2), OpenFifo),
      false, {Usr2}, NoHandler)], AwaitLogin, 2, 2, 1, 1, 1, [(1, 2), (2, 1)])
    case _ => At(ONE_OFFERED, TWO_OFFERED, [Proc(1, OpenWrite(2, 1), false, {Usr2}, NoHandler), Proc(2,
      OpenWrite(1, 2), false, {Usr2}, NoHandler)], AwaitLogin, 2, 2, 1, 1, 1, [(1, 2), (2, 1)])
  }

  function BothSignalStep(k: nat): Label {
    if k == 0 then HandOver(0) else HandOver(1)
  }

  lemma BothSignalStepsA(k: nat)
    requires k == 0 && WellFormed(BothSignal(0))
    ensures IsStep(BothSignal(0), BothSignalStep(0), BothSignal(1)) && WellFormed(BothSignal(1))
  {
    Arrives(BothSignal(0), BothSignalStep(0), BothSignal(1));
  }

  lemma BothSignalStepsB(k: nat)
    requires k == 1 && WellFormed(BothSignal(1))
    ensures IsStep(BothSignal(1), BothSignalStep(1), BothSignal(2)) && WellFormed(BothSignal(2))
  {
    Arrives(BothSignal(1), BothSignalStep(1), BothSignal(2));
  }

  /** The whole run. */
  function Crossed(k: nat): State
    requires k <= 38
  {
    if k <= 6 then FirstIn(k)
    else if k <= 12 then FirstReady(k - 6)
    else if k <= 17 then SecondIn(k - 12)
    else if k <= 21 then Greeting(k - 17)
    else if k <= 26 then Reading(k - 21)
    else if k <= 31 then FirstOffers(k - 26)
    else if k <= 36 then SecondOffers(k - 31)
    else BothSignal(k - 36)
  }

  function CrossedStep(k: nat): Label
    requires k < 38
  {
    if k < 6 then FirstInStep(k)
    else if k < 12 then FirstReadyStep(k - 6)
    else if k < 17 then SecondInStep(k - 12)
    else if k < 21 then GreetingStep(k - 17)
    else if k < 26 then ReadingStep(k - 21)
    else if k < 31 then FirstOffersStep(k - 26)
    else if k < 36 then SecondOffersStep(k - 31)
    else BothSignalStep(k - 36)
  }

  /** Each part of the run starts where the one before it ends. */
  lemma Joints()
    ensures FirstIn(6) == FirstReady(0)
    ensures FirstReady(6) == SecondIn(0)
    ensures SecondIn(5) == Greeting(0)
    ensures Greeting(4) == Reading(0)
    ensures Reading(5) == FirstOffers(0)
    ensures FirstOffers(5) == SecondOffers(0)
    ensures SecondOffers(5) == BothSignal(0)
  {
  }

  lemma PartSteps(k: nat)
    requires k < 38 && WellFormed(Crossed(k))
    ensures IsStep(Crossed(k), CrossedStep(k), Crossed(k + 1)) && WellFormed(Crossed(k + 1))
  {
    Joints();
    hide IsStep, WellFormed, FirstIn, FirstInStep, FirstReady, FirstReadyStep, SecondIn, SecondInStep, Greeting;
    hide GreetingStep, Reading, ReadingStep, FirstOffers, FirstOffersStep, SecondOffers, SecondOffersStep;
    hide BothSignal, BothSignalStep;
    if k < 6 {
      FirstInSteps(k);
    } else if k < 12 {
      FirstReadySteps(k - 6);
    } else if k < 17 {
      SecondInSteps(k - 12);
    } else if k < 19 {
      GreetingStepsA(k - 17);
    } else if k < 21 {
      GreetingStepsB(k - 17);
    } else if k < 23 {
      ReadingStepsA(k - 21);
    } else if k < 26 {
      ReadingStepsB(k - 21);
    } else if k < 28 {
      FirstOffersStepsA(k - 26);
    } else if k < 29 {
      FirstOffersStepsB(k - 26);
    } else if k < 31 {
      FirstOffersStepsC(k - 26);
    } else if k < 33 {
      SecondOffersStepsA(k - 31);
    } else if k < 34 {
      SecondOffersStepsB(k - 31);
    } else if k < 35 {
      SecondOffersStepsC(k - 31);
    } else if k < 36 {
      SecondOffersStepsD(k - 31);
    } else if k < 37 {
      BothSignalStepsA(k - 36);
    } else {
      BothSignalStepsB(k - 36);
    }
  }

  lemma {:induction false} WholeSteps(k: nat)
    requires k < 38
    ensures IsStep(Crossed(k), CrossedStep(k), Crossed(k + 1)) && WellFormed(Crossed(k + 1))
  {
    if k == 0 { StartsWell(); } else { WholeSteps(k - 1); }
    hide IsStep, WellFormed, Crossed, CrossedStep;
    PartSteps(k);
  }

  lemma StartsWell()
    ensures Crossed(0) == Init(2) && WellFormed(Crossed(0))
  {
    assert Crossed(0).clients == Init(2).clients;
  }

  lemma WholeRun() returns (states: seq<State>, labels: seq<Label>)
    ensures IsRun(2, states, labels) && FreshIds(states, labels) && |states| == 39 && states[38] == Crossed(38)
  {
    states := seq(39, k requires 0 <= k < 39 => Crossed(k));
    labels := seq(38, k requires 0 <= k < 38 => CrossedStep(k));
    StartsWell();
    hide Crossed, CrossedStep, Init, IsStep, IsRun, FreshIds;
    forall k | 0 <= k < 38
      ensures IsStep(states[k], labels[k], states[k + 1])
    {
      WholeSteps(k);
    }
    StepsAreRun(2, states, labels);
  }

  lemma CrossedWaits()
    ensures Awaits(Crossed(38), 0, 1) && Awaits(Crossed(38), 1, 0)
  {
  }

  /** A run that ends with two clients waiting for each other, neither of which can ever be served. */
  lemma CrossedOffersBlock() returns (states: seq<State>, labels: seq<Label>)
    ensures IsRun(2, states, labels) && FreshIds(states, labels) && |states| == 39
    ensures Awaits(states[38], 0, 1) && Awaits(states[38], 1, 0) && Knot(states[38], {0, 1})
    ensures !CanBeServed(states[38], 0) && !CanBeServed(states[38], 1)
  {
    hide IsRun, FreshIds, Safe, Pipes, Awaits, Crossed, CanBeServed, NamesFree;
    states, labels := WholeRun();
    CrossedWaits();
    RunKnots(2, states, labels, 38);
    assert Tied(states[38], {0, 1}, 0) && Tied(states[38], {0, 1}, 1);
    KnotIsNeverServed(states[38], {0, 1}, 0);
    KnotIsNeverServed(states[38], {0, 1}, 1);
  }
}
