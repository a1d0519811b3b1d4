/**
  Two processes under one id: a run of the multi-process server from its start in which the
  table of ids has been full.
  */
module HandoffShared {
  import opened Handoff
  import opened HandoffAdmission
  import opened HandoffCrossed
  import opened HandoffReach
  import opened HandoffTokens

  const TWO_TAKEN := TWO_PRESENT.(lock := 0, log := [Entry(0, 1, Tell(""), Taken)])
  const TWO_ALERTED := TWO_TAKEN.(log := [Entry(0, 1, Tell(""), Committed(1))])
  const TWO_READ := TWO_ALERTED.(log := [Entry(0, 1, Tell(""), Handled(1, Written))], screen := [Line(1,
    Words(""))])
  const TWO_TOLD := TWO_READ.(lock := 1, log := [Entry(0, 1, Tell(""), Finished(1, Written))])
  const ONE_THIRD := ONE_ABSENT.(state := true, pid := 2)
  const TWO_GONE := TWO_TOLD.(state := false)
  const ONE_THIRD_TAKEN := ONE_THIRD.(lock := 0, log := [Entry(1, 2, Tell(""), Taken)])
  const ONE_THIRD_ALERTED := ONE_THIRD_TAKEN.(log := [Entry(1, 2, Tell(""), Committed(2))])
  const ONE_FOURTH := ONE_THIRD_ALERTED.(pid := 3)

  /** The parent sees both; client 1 types `exit` and gives its id back. */
  function FirstQuits(k: nat): State
    requires k <= 5
  {
    match k
    case 0 => At(ONE_PRESENT, TWO_PRESENT, [Calm(1, Idle), Calm(2, Broadcast(1, "", false))], AwaitLogin, 2, 2, 1,
      1, 1, [])
    case 1 => At(ONE_PRESENT, TWO_PRESENT, [Calm(1, Idle), Calm(2, Broadcast(1, "", false))], Recheck, 2, 2, 0, 1,
      1, [])
    case 2 => At(ONE_PRESENT, TWO_PRESENT, [Proc(1, Logout(AskAgain, ""), true, {}, NoHandler), Calm(2,
      Broadcast(1, "", false))], Recheck, 2, 2, 0, 1, 1, [])
    case 3 => At(ONE_PRESENT, TWO_PRESENT, [Proc(1, Logout(Delete, ""), true, {}, NoHandler), Calm(2, Broadcast(1,
      "", false))], Recheck, 2, 2, 0, 0, 1, [])
    case 4 => At(ONE_ABSENT, TWO_PRESENT, [Proc(1, Logout(SubOne, ""), true, {}, NoHandler), Calm(2, Broadcast(1,
      "", false))], Recheck, 2, 2, 0, 0, 1, [])
    case _ => At(ONE_ABSENT, TWO_PRESENT, [Proc(1, Broadcast(1, "", true), true, {}, NoHandler), Calm(2,
      Broadcast(1, "", false))], Recheck, 1, 1, 0, 0, 1, [])
  }

  function FirstQuitsStep(k: nat): Label {
    if k == 0 then ParentWakes else if k == 1 then Start(0, Quit("")) else LogOut(0)
  }

  lemma FirstQuitsStepsA(k: nat)
    requires 0 <= k < 3 && WellFormed(FirstQuits(k))
    ensures IsStep(FirstQuits(k), FirstQuitsStep(k), FirstQuits(k + 1)) && WellFormed(FirstQuits(k + 1))
  {
    Arrives(FirstQuits(k), FirstQuitsStep(k), FirstQuits(k + 1));
  }

  lemma FirstQuitsStepsB(k: nat)
    requires 3 <= k < 5 && WellFormed(FirstQuits(k))
    ensures IsStep(FirstQuits(k), FirstQuitsStep(k), FirstQuits(k + 1)) && WellFormed(FirstQuits(k + 1))
  {
    Arrives(FirstQuits(k), FirstQuitsStep(k), FirstQuits(k + 1));
  }

  /** It tells client 2 and ends. */
  function Farewell(k: nat): State
    requires k <= 7
  {
    match k
    case 0 => At(ONE_ABSENT, TWO_PRESENT, [Proc(1, Broadcast(1, "", true), true, {}, NoHandler), Calm(2,
      Broadcast(1, "", false))], Recheck, 1, 1, 0, 0, 1, [])
    case 1 => At(ONE_ABSENT, TWO_PRESENT, [Proc(1, Broadcast(2, "", true), true, {}, NoHandler), Calm(2,
      Broadcast(1, "", false))], Recheck, 1, 1, 0, 0, 1, [])
    case 2 => At(ONE_ABSENT, TWO_PRESENT, [Proc(1, Send(SemWait, 2, Tell(""), Resume(3, "", true)), true, {},
      NoHandler), Calm(2, Broadcast(1, "", false))], Recheck, 1, 1, 0, 0, 1, [])
    case 3 => At(ONE_ABSENT, TWO_TAKEN, [Proc(1, Send(Fill, 2, Tell(""), Resume(3, "", true)), true, {},
      NoHandler), Calm(2, Broadcast(1, "", false))], Recheck, 1, 1, 0, 0, 1, [])
    case 4 => At(ONE_ABSENT, TWO_TAKEN, [Proc(1, Send(TestState, 2, Tell(""), Resume(3, "", true)), true, {},
      NoHandler), Calm(2, Broadcast(1, "", false))], Recheck, 1, 1, 0, 0, 1, [])
    case 5 => At(ONE_ABSENT, TWO_ALERTED, [Proc(1, Broadcast(3, "", true), true, {}, NoHandler), Proc(2,
      Broadcast(1, "", false), false, {Usr1}, NoHandler)], Recheck, 1, 1, 0, 0, 1, [])
    case 6 => At(ONE_ABSENT, TWO_ALERTED, [Proc(1, Leave, true, {}, NoHandler), Proc(2, Broadcast(1, "", false),
      false, {Usr1}, NoHandler)], Recheck, 1, 1, 0, 0, 1, [])
    case _ => At(ONE_ABSENT, TWO_ALERTED, [Proc(1, Exited, true, {}, NoHandler), Proc(2, Broadcast(1, "", false),
      false, {Usr1}, NoHandler)], Recheck, 1, 1, 0, 1, 1, [])
  }

  function FarewellStep(k: nat): Label {
    if k <= 1 then Loop(0) else if k <= 4 then HandOver(0) else if k == 5 then Loop(0) else LogOut(0)
  }

  lemma FarewellStepsA(k: nat)
    requires 0 <= k < 2 && WellFormed(Farewell(k))
    ensures IsStep(Farewell(k), FarewellStep(k), Farewell(k + 1)) && WellFormed(Farewell(k + 1))
  {
    Arrives(Farewell(k), FarewellStep(k), Farewell(k + 1));
  }

  lemma FarewellStepsB(k: nat)
    requires 2 <= k < 4 && WellFormed(Farewell(k))
    ensures IsStep(Farewell(k), FarewellStep(k), Farewell(k + 1)) && WellFormed(Farewell(k + 1))
  {
    Arrives(Farewell(k), FarewellStep(k), Farewell(k + 1));
  }

  lemma FarewellStepsC(k: nat)
    requires 4 <= k < 6 && WellFormed(Farewell(k))
    ensures IsStep(Farewell(k), FarewellStep(k), Farewell(k + 1)) && WellFormed(Farewell(k + 1))
  {
    Arrives(Farewell(k), FarewellStep(k), Farewell(k + 1));
  }

  lemma FarewellStepsD(k: nat)
    requires k == 6 && WellFormed(Farewell(6))
    ensures IsStep(Farewell(6), FarewellStep(6), Farewell(7)) && WellFormed(Farewell(7))
  {
    Arrives(Farewell(6), FarewellStep(6), Farewell(7));
  }

  /** The parent accepts a third connection; client 2 writes the farewell. */
  function ThirdConnects(k: nat): State
    requires k <= 5
  {
    match k
    case 0 => At(ONE_ABSENT, TWO_ALERTED, [Proc(1, Exited, true, {}, NoHandler), Proc(2, Broadcast(1, "", false),
      false, {Usr1}, NoHandler)], Recheck, 1, 1, 0, 1, 1, [])
    case 1 => At(ONE_ABSENT, TWO_ALERTED, [Proc(1, Exited, true, {}, NoHandler), Proc(2, Broadcast(1, "", false),
      false, {Usr1}, NoHandler)], Accepting, 1, 1, 0, 1, 1, [])
    case 2 => At(ONE_ABSENT, TWO_ALERTED, [Proc(1, Exited, true, {}, NoHandler), Proc(2, Broadcast(1, "", false),
      false, {Usr1}, NoHandler), Calm(0, Login(AskLock2, ""))], AwaitLogin, 1, 1, 0, 1, 1, [])
    case 3 => At(ONE_ABSENT, TWO_ALERTED, [Proc(1, Exited, true, {}, NoHandler), Proc(2, Broadcast(1, "", false),
      false, {}, Running(Usr1)), Calm(0, Login(AskLock2, ""))], AwaitLogin, 1, 1, 0, 1, 1, [])
    case 4 => At(ONE_ABSENT, TWO_READ, [Proc(1, Exited, true, {}, NoHandler), Proc(2, Broadcast(1, "", false),
      false, {}, Posting), Calm(0, Login(AskLock2, ""))], AwaitLogin, 1, 1, 0, 1, 1, [])
    case _ => At(ONE_ABSENT, TWO_TOLD, [Proc(1, Exited, true, {}, NoHandler), Calm(2, Broadcast(1, "", false)),
      Calm(0, Login(AskLock2, ""))], AwaitLogin, 1, 1, 0, 1, 1, [])
  }

  function ThirdConnectsStep(k: nat): Label {
    if k == 0 then ParentRechecks else if k == 1 then Accept("") else if k == 2 then Deliver(1, Usr1)
    else if k == 3 then Handle(1) else PostMailbox(1)
  }

  lemma ThirdConnectsStepsA(k: nat)
    requires 0 <= k < 2 && WellFormed(ThirdConnects(k))
    ensures IsStep(ThirdConnects(k), ThirdConnectsStep(k), ThirdConnects(k + 1)) && WellFormed(ThirdConnects(k + 1))
  {
    Arrives(ThirdConnects(k), ThirdConnectsStep(k), ThirdConnects(k + 1));
  }

  lemma ThirdConnectsStepsB(k: nat)
    requires 2 <= k < 4 && WellFormed(ThirdConnects(k))
    ensures IsStep(ThirdConnects(k), ThirdConnectsStep(k), ThirdConnects(k + 1)) && WellFormed(ThirdConnects(k + 1))
  {
    Arrives(ThirdConnects(k), ThirdConnectsStep(k), ThirdConnects(k + 1));
  }

  lemma ThirdConnectsStepsC(k: nat)
    requires k == 4 && WellFormed(ThirdConnects(4))
    ensures IsStep(ThirdConnects(4), ThirdConnectsStep(4), ThirdConnects(5)) && WellFormed(ThirdConnects(5))
  {
    Arrives(ThirdConnects(4), ThirdConnectsStep(4), ThirdConnects(5));
  }

  /** Client 2 finds nobody else to greet. */
  function SecondReady(k: nat): State
    requires k <= 3
  {
    match k
    case 0 => At(ONE_ABSENT, TWO_TOLD, [Proc(1, Exited, true, {}, NoHandler), Calm(2, Broadcast(1, "", false)),
      Calm(0, Login(AskLock2, ""))], AwaitLogin, 1, 1, 0, 1, 1, [])
    case 1 => At(ONE_ABSENT, TWO_TOLD, [Proc(1, Exited, true, {}, NoHandler), Calm(2, Broadcast(2, "", false)),
      Calm(0, Login(AskLock2, ""))], AwaitLogin, 1, 1, 0, 1, 1, [])
    case 2 => At(ONE_ABSENT, TWO_TOLD, [Proc(1, Exited, true, {}, NoHandler), Calm(2, Broadcast(3, "", false)),
      Calm(0, Login(AskLock2, ""))], AwaitLogin, 1, 1, 0, 1, 1, [])
    case _ => At(ONE_ABSENT, TWO_TOLD, [Proc(1, Exited, true, {}, NoHandler), Calm(2, Idle), Calm(0,
      Login(AskLock2, ""))], AwaitLogin, 1, 1, 0, 1, 1, [])
  }

  function SecondReadyStep(k: nat): Label {
    Loop(1)
  }

  lemma SecondReadySteps(k: nat)
    requires 0 <= k < 3 && WellFormed(SecondReady(k))
    ensures IsStep(SecondReady(k), SecondReadyStep(k), SecondReady(k + 1)) && WellFormed(SecondReady(k + 1))
  {
    Arrives(SecondReady(k), SecondReadyStep(k), SecondReady(k + 1));
  }

  /** The third process takes id 1. */
  function ThirdIn(k: nat): State
    requires k <= 6
  {
    match k
    case 0 => At(ONE_ABSENT, TWO_TOLD, [Proc(1, Exited, true, {}, NoHandler), Calm(2, Idle), Calm(0,
      Login(AskLock2, ""))], AwaitLogin, 1, 1, 0, 1, 1, [])
    case 1 => At(ONE_ABSENT, TWO_TOLD, [Proc(1, Exited, true, {}, NoHandler), Calm(2, Idle), Calm(1, Login(AddOne,
      ""))], AwaitLogin, 1, 1, 0, 0, 1, [])
    case 2 => At(ONE_ABSENT, TWO_TOLD, [Proc(1, Exited, true, {}, NoHandler), Calm(2, Idle), Calm(1, Login(Publish,
      ""))], AwaitLogin, 2, 1, 0, 0, 1, [])
    case 3 => At(ONE_THIRD, TWO_TOLD, [Proc(1, Exited, true, {}, NoHandler), Calm(2, Idle), Calm(1, Login(Rescan,
      ""))], AwaitLogin, 2, 1, 0, 0, 1, [])
    case 4 => At(ONE_THIRD, TWO_TOLD, [Proc(1, Exited, true, {}, NoHandler), Calm(2, Idle), Calm(1,
      Login(FreeLock2, ""))], AwaitLogin, 2, 1, 1, 0, 1, [])
    case 5 => At(ONE_THIRD, TWO_TOLD, [Proc(1, Exited, true, {}, NoHandler), Calm(2, Idle), Calm(1, Broadcast(1,
      "", false))], AwaitLogin, 2, 1, 1, 1, 1, [])
    case _ => At(ONE_THIRD, TWO_TOLD, [Proc(1, Exited, true, {}, NoHandler), Calm(2, Idle), Calm(1, Broadcast(1,
      "", false))], Recheck, 2, 1, 0, 1, 1, [])
  }

  function ThirdInStep(k: nat): Label {
    if k <= 4 then LogIn(2) else ParentWakes
  }

  lemma ThirdInStepsA(k: nat)
    requires 0 <= k < 3 && WellFormed(ThirdIn(k))
    ensures IsStep(ThirdIn(k), ThirdInStep(k), ThirdIn(k + 1)) && WellFormed(ThirdIn(k + 1))
  {
    Arrives(ThirdIn(k), ThirdInStep(k), ThirdIn(k + 1));
  }

  lemma ThirdInStepsB(k: nat)
    requires 3 <= k < 6 && WellFormed(ThirdIn(k))
    ensures IsStep(ThirdIn(k), ThirdInStep(k), ThirdIn(k + 1)) && WellFormed(ThirdIn(k + 1))
  {
    Arrives(ThirdIn(k), ThirdInStep(k), ThirdIn(k + 1));
  }

  /** Client 2 types `exit` and gives its id back: the hint stays at id 1. */
  function SecondQuits(k: nat): State
    requires k <= 4
  {
    match k
    case 0 => At(ONE_THIRD, TWO_TOLD, [Proc(1, Exited, true, {}, NoHandler), Calm(2, Idle), Calm(1, Broadcast(1,
      "", false))], Recheck, 2, 1, 0, 1, 1, [])
    case 1 => At(ONE_THIRD, TWO_TOLD, [Proc(1, Exited, true, {}, NoHandler), Proc(2, Logout(AskAgain, ""), true,
      {}, NoHandler), Calm(1, Broadcast(1, "", false))], Recheck, 2, 1, 0, 1, 1, [])
    case 2 => At(ONE_THIRD, TWO_TOLD, [Proc(1, Exited, true, {}, NoHandler), Proc(2, Logout(Delete, ""), true, {},
      NoHandler), Calm(1, Broadcast(1, "", false))], Recheck, 2, 1, 0, 0, 1, [])
    case 3 => At(ONE_THIRD, TWO_GONE, [Proc(1, Exited, true, {}, NoHandler), Proc(2, Logout(SubOne, ""), true, {},
      NoHandler), Calm(1, Broadcast(1, "", false))], Recheck, 2, 1, 0, 0, 1, [])
    case _ => At(ONE_THIRD, TWO_GONE, [Proc(1, Exited, true, {}, NoHandler), Proc(2, Broadcast(1, "", true), true,
      {}, NoHandler), Calm(1, Broadcast(1, "", false))], Recheck, 1, 1, 0, 0, 1, [])
  }

  function SecondQuitsStep(k: nat): Label {
    if k == 0 then Start(1, Quit("")) else LogOut(1)
  }

  lemma SecondQuitsStepsA(k: nat)
    requires 0 <= k < 2 && WellFormed(SecondQuits(k))
    ensures IsStep(SecondQuits(k), SecondQuitsStep(k), SecondQuits(k + 1)) && WellFormed(SecondQuits(k + 1))
  {
    Arrives(SecondQuits(k), SecondQuitsStep(k), SecondQuits(k + 1));
  }

  lemma SecondQuitsStepsB(k: nat)
    requires 2 <= k < 4 && WellFormed(SecondQuits(k))
    ensures IsStep(SecondQuits(k), SecondQuitsStep(k), SecondQuits(k + 1)) && WellFormed(SecondQuits(k + 1))
  {
    Arrives(SecondQuits(k), SecondQuitsStep(k), SecondQuits(k + 1));
  }

  /** It tells the third process and ends. */
  function LastFarewell(k: nat): State
    requires k <= 7
  {
    match k
    case 0 => At(ONE_THIRD, TWO_GONE, [Proc(1, Exited, true, {}, NoHandler), Proc(2, Broadcast(1, "", true), true,
      {}, NoHandler), Calm(1, Broadcast(1, "", false))], Recheck, 1, 1, 0, 0, 1, [])
    case 1 => At(ONE_THIRD, TWO_GONE, [Proc(1, Exited, true, {}, NoHandler), Proc(2, Send(SemWait, 1, Tell(""),
      Resume(2, "", true)), true, {}, NoHandler), Calm(1, Broadcast(1, "", false))], Recheck, 1, 1, 0, 0, 1, [])
    case 2 => At(ONE_THIRD_TAKEN, TWO_GONE, [Proc(1, Exited, true, {}, NoHandler), Proc(2, Send(Fill, 1, Tell(""),
      Resume(2, "", true)), true, {}, NoHandler), Calm(1, Broadcast(1, "", false))], Recheck, 1, 1, 0, 0, 1, [])
    case 3 => At(ONE_THIRD_TAKEN, TWO_GONE, [Proc(1, Exited, true, {}, NoHandler), Proc(2, Send(TestState, 1,
      Tell(""), Resume(2, "", true)), true, {}, NoHandler), Calm(1, Broadcast(1, "", false))], Recheck, 1, 1, 0, 0,
      1, [])
    case 4 => At(ONE_THIRD_ALERTED, TWO_GONE, [Proc(1, Exited, true, {}, NoHandler), Proc(2, Broadcast(2, "",
      true), true, {}, NoHandler), Proc(1, Broadcast(1, "", false), false, {Usr1}, NoHandler)], Recheck, 1, 1, 0,
      0, 1, [])
    case 5 => At(ONE_THIRD_ALERTED, TWO_GONE, [Proc(1, Exited, true, {}, NoHandler), Proc(2, Broadcast(3, "",
      true), true, {}, NoHandler), Proc(1, Broadcast(1, "", false), false, {Usr1}, NoHandler)], Recheck, 1, 1, 0,
      0, 1, [])
    case 6 => At(ONE_THIRD_ALERTED, TWO_GONE, [Proc(1, Exited, true, {}, NoHandler), Proc(2, Leave, true, {},
      NoHandler), Proc(1, Broadcast(1, "", false), false, {Usr1}, NoHandler)], Recheck, 1, 1, 0, 0, 1, [])
    case _ => At(ONE_THIRD_ALERTED, TWO_GONE, [Proc(1, Exited, true, {}, NoHandler), Proc(2, Exited, true, {},
      NoHandler), Proc(1, Broadcast(1, "", false), false, {Usr1}, NoHandler)], Recheck, 1, 1, 0, 1, 1, [])
  }

  function LastFarewellStep(k: nat): Label {
    if k == 0 then Loop(1) else if k <= 3 then HandOver(1) else if k <= 5 then Loop(1) else LogOut(1)
  }

  lemma LastFarewellStepsA(k: nat)
    requires 0 <= k < 2 && WellFormed(LastFarewell(k))
    ensures IsStep(LastFarewell(k), LastFarewellStep(k), LastFarewell(k + 1)) && WellFormed(LastFarewell(k + 1))
  {
    Arrives(LastFarewell(k), LastFarewellStep(k), LastFarewell(k + 1));
  }

  lemma LastFarewellStepsB(k: nat)
    requires k == 2 && WellFormed(LastFarewell(2))
    ensures IsStep(LastFarewell(2), LastFarewellStep(2), LastFarewell(3)) && WellFormed(LastFarewell(3))
  {
    Arrives(LastFarewell(2), LastFarewellStep(2), LastFarewell(3));
  }

  lemma LastFarewellStepsC(k: nat)
    requires k == 3 && WellFormed(LastFarewell(3))
    ensures IsStep(LastFarewell(3), LastFarewellStep(3), LastFarewell(4)) && WellFormed(LastFarewell(4))
  {
    Arrives(LastFarewell(3), LastFarewellStep(3), LastFarewell(4));
  }

  lemma LastFarewellStepsD(k: nat)
    requires 4 <= k < 7 && WellFormed(LastFarewell(k))
    ensures IsStep(LastFarewell(k), LastFarewellStep(k), LastFarewell(k + 1)) && WellFormed(LastFarewell(k + 1))
  {
    Arrives(LastFarewell(k), LastFarewellStep(k), LastFarewell(k + 1));
  }

  /** The parent accepts a fourth connection. */
  function FourthConnects(k: nat): State
    requires k <= 2
  {
    match k
    case 0 => At(ONE_THIRD_ALERTED, TWO_GONE, [Proc(1, Exited, true, {}, NoHandler), Proc(2, Exited, true, {},
      NoHandler), Proc(1, Broadcast(1, "", false), false, {Usr1}, NoHandler)], Recheck, 1, 1, 0, 1, 1, [])
    case 1 => At(ONE_THIRD_ALERTED, TWO_GONE, [Proc(1, Exited, true, {}, NoHandler), Proc(2, Exited, true, {},
      NoHandler), Proc(1, Broadcast(1, "", false), false, {Usr1}, NoHandler)], Accepting, 1, 1, 0, 1, 1, [])
    case _ => At(ONE_THIRD_ALERTED, TWO_GONE, [Proc(1, Exited, true, {}, NoHandler), Proc(2, Exited, true, {},
      NoHandler), Proc(1, Broadcast(1, "", false), false, {Usr1}, NoHandler), Calm(0, Login(AskLock2, ""))],
      AwaitLogin, 1, 1, 0, 1, 1, [])
  }

  function FourthConnectsStep(k: nat): Label {
    if k == 0 then ParentRechecks else Accept("")
  }

  lemma FourthConnectsSteps(k: nat)
    requires 0 <= k < 2 && WellFormed(FourthConnects(k))
    ensures IsStep(FourthConnects(k), FourthConnectsStep(k), FourthConnects(k + 1)) && WellFormed(FourthConnects(k + 1))
  {
    Arrives(FourthConnects(k), FourthConnectsStep(k), FourthConnects(k + 1));
  }

  /** The whole run. */
  function Shared(k: nat): State
    requires k <= 56
  {
    if k <= 6 then FirstIn(k)
    else if k <= 12 then FirstReady(k - 6)
    else if k <= 17 then SecondIn(k - 12)
    else if k <= 22 then FirstQuits(k - 17)
    else if k <= 29 then Farewell(k - 22)
    else if k <= 34 then ThirdConnects(k - 29)
    else if k <= 37 then SecondReady(k - 34)
    else if k <= 43 then ThirdIn(k - 37)
    else if k <= 47 then SecondQuits(k - 43)
    else if k <= 54 then LastFarewell(k - 47)
    else FourthConnects(k - 54)
  }

  function SharedStep(k: nat): Label
    requires k < 56
  {
    if k < 6 then FirstInStep(k)
    else if k < 12 then FirstReadyStep(k - 6)
    else if k < 17 then SecondInStep(k - 12)
    else if k < 22 then FirstQuitsStep(k - 17)
    else if k < 29 then FarewellStep(k - 22)
    else if k < 34 then ThirdConnectsStep(k - 29)
    else if k < 37 then SecondReadyStep(k - 34)
    else if k < 43 then ThirdInStep(k - 37)
    else if k < 47 then SecondQuitsStep(k - 43)
    else if k < 54 then LastFarewellStep(k - 47)
    else FourthConnectsStep(k - 54)
  }

  /** Each part of the run starts where the one before it ends. */
  lemma Joints()
    ensures FirstIn(6) == FirstReady(0)
    ensures FirstReady(6) == SecondIn(0)
    ensures SecondIn(5) == FirstQuits(0)
    ensures FirstQuits(5) == Farewell(0)
    ensures Farewell(7) == ThirdConnects(0)
    ensures ThirdConnects(5) == SecondReady(0)
    ensures SecondReady(3) == ThirdIn(0)
    ensures ThirdIn(6) == SecondQuits(0)
    ensures SecondQuits(4) == LastFarewell(0)
    ensures LastFarewell(7) == FourthConnects(0)
  {
  }

  lemma PartSteps(k: nat)
    requires k < 56 && WellFormed(Shared(k))
    ensures IsStep(Shared(k), SharedStep(k), Shared(k + 1)) && WellFormed(Shared(k + 1))
  {
    Joints();
    hide IsStep, WellFormed, FirstIn, FirstInStep, FirstReady, FirstReadyStep, SecondIn, SecondInStep;
    hide FirstQuits, FirstQuitsStep, Farewell, FarewellStep, ThirdConnects, ThirdConnectsStep, SecondReady;
    hide SecondReadyStep, ThirdIn, ThirdInStep, SecondQuits, SecondQuitsStep, LastFarewell, LastFarewellStep;
    hide FourthConnects, FourthConnectsStep;
    if k < 6 {
      FirstInSteps(k);
    } else if k < 12 {
      FirstReadySteps(k - 6);
    } else if k < 17 {
      SecondInSteps(k - 12);
    } else if k < 20 {
      FirstQuitsStepsA(k - 17);
    } else if k < 22 {
      FirstQuitsStepsB(k - 17);
    } else if k < 24 {
      FarewellStepsA(k - 22);
    } else if k < 26 {
      FarewellStepsB(k - 22);
    } else if k < 28 {
      FarewellStepsC(k - 22);
    } else if k < 29 {
      FarewellStepsD(k - 22);
    } else if k < 31 {
      ThirdConnectsStepsA(k - 29);
    } else if k < 33 {
      ThirdConnectsStepsB(k - 29);
    } else if k < 34 {
      ThirdConnectsStepsC(k - 29);
    } else if k < 37 {
      SecondReadySteps(k - 34);
    } else if k < 40 {
      ThirdInStepsA(k - 37);
    } else if k < 43 {
      ThirdInStepsB(k - 37);
    } else if k < 45 {
      SecondQuitsStepsA(k - 43);
    } else if k < 47 {
      SecondQuitsStepsB(k - 43);
    } else if k < 49 {
      LastFarewellStepsA(k - 47);
    } else if k < 50 {
      LastFarewellStepsB(k - 47);
    } else if k < 51 {
      LastFarewellStepsC(k - 47);
    } else if k < 54 {
      LastFarewellStepsD(k - 47);
    } else {
      FourthConnectsSteps(k - 54);
    }
  }

  lemma {:induction false} WholeSteps(k: nat)
    requires k < 56
    ensures IsStep(Shared(k), SharedStep(k), Shared(k + 1)) && WellFormed(Shared(k + 1))
  {
    if k == 0 { StartsWell(); } else { WholeSteps(k - 1); }
    hide IsStep, WellFormed, Shared, SharedStep;
    PartSteps(k);
  }

  lemma StartsWell()
    ensures Shared(0) == Init(2) && WellFormed(Shared(0))
  {
    assert Shared(0).clients == Init(2).clients;
  }

  lemma WholeRun() returns (states: seq<State>, labels: seq<Label>)
    ensures IsRun(2, states, labels) && FreshIds(states, labels) && |states| == 57 && states[56] == Shared(56)
  {
    states := seq(57, k requires 0 <= k < 57 => Shared(k));
    labels := seq(56, k requires 0 <= k < 56 => SharedStep(k));
    StartsWell();
    hide Shared, SharedStep, Init, IsStep, IsRun, FreshIds;
    forall k | 0 <= k < 56
      ensures IsStep(states[k], labels[k], states[k + 1])
    {
      WholeSteps(k);
    }
    StepsAreRun(2, states, labels);
  }

  // ---- The fourth login ----

  /** The fourth process is given id 1 as well. */
  function FourthIn(k: nat): State
    requires k <= 3
  {
    match k
    case 0 => At(ONE_THIRD_ALERTED, TWO_GONE, [Proc(1, Exited, true, {}, NoHandler), Proc(2, Exited, true, {},
      NoHandler), Proc(1, Broadcast(1, "", false), false, {Usr1}, NoHandler), Calm(0, Login(AskLock2, ""))],
      AwaitLogin, 1, 1, 0, 1, 1, [])
    case 1 => At(ONE_THIRD_ALERTED, TWO_GONE, [Proc(1, Exited, true, {}, NoHandler), Proc(2, Exited, true, {},
      NoHandler), Proc(1, Broadcast(1, "", false), false, {Usr1}, NoHandler), Calm(1, Login(AddOne, ""))],
      AwaitLogin, 1, 1, 0, 0, 1, [])
    case 2 => At(ONE_THIRD_ALERTED, TWO_GONE, [Proc(1, Exited, true, {}, NoHandler), Proc(2, Exited, true, {},
      NoHandler), Proc(1, Broadcast(1, "", false), false, {Usr1}, NoHandler), Calm(1, Login(Publish, ""))],
      AwaitLogin, 2, 1, 0, 0, 1, [])
    case _ => At(ONE_FOURTH, TWO_GONE, [Proc(1, Exited, true, {}, NoHandler), Proc(2, Exited, true, {}, NoHandler),
      Proc(1, Broadcast(1, "", false), false, {Usr1}, NoHandler), Calm(1, Login(Rescan, ""))], AwaitLogin, 2, 1, 0,
      0, 1, [])
  }

  lemma FourthStep(k: nat)
    requires k < 3 && WellFormed(FourthIn(k)) && Enabled(FourthIn(k), LogIn(3))
    requires Same(Next(FourthIn(k), LogIn(3)), FourthIn(k + 1))
    ensures Next(FourthIn(k), LogIn(3)) == FourthIn(k + 1) && WellFormed(FourthIn(k + 1))
  {
    SameIsEqual(Next(FourthIn(k), LogIn(3)), FourthIn(k + 1));
    StepWellFormed(FourthIn(k), LogIn(3));
    hide WellFormed, Enabled, Next, Same, FourthIn;
  }

  lemma FourthSteps(k: nat)
    requires k < 3 && WellFormed(FourthIn(k))
    ensures Enabled(FourthIn(k), LogIn(3)) && Next(FourthIn(k), LogIn(3)) == FourthIn(k + 1)
            && WellFormed(FourthIn(k + 1))
  {
    FourthStep(k);
  }

  lemma ExtendRun(n: nat, states: seq<State>, labels: seq<Label>, l: Label, s: State)
    requires IsRun(n, states, labels) && WellFormed(states[|labels|]) && Enabled(states[|labels|], l)
    requires Next(states[|labels|], l) == s
    ensures IsRun(n, states + [s], labels + [l])
  {
    hide WellFormed, Enabled, Next, Init;
  }

  lemma LastThree(states: seq<State>, labels: seq<Label>) returns (states': seq<State>, labels': seq<Label>)
    requires IsRun(2, states, labels) && |labels| == 56 && states[56] == FourthIn(0) && WellFormed(FourthIn(0))
    ensures IsRun(2, states', labels') && |labels'| == 59 && states'[..57] == states && labels'[..56] == labels
    ensures labels'[56] == LogIn(3) && states'[59] == FourthIn(3)
  {
    hide IsRun, WellFormed, Enabled, Next, FourthIn;
    assert |states| == 57 by { LengthOf(states, labels); }
    FourthSteps(0);
    ExtendRun(2, states, labels, LogIn(3), FourthIn(1));
    states', labels' := states + [FourthIn(1)], labels + [LogIn(3)];
    FourthSteps(1);
    ExtendRun(2, states', labels', LogIn(3), FourthIn(2));
    states', labels' := states' + [FourthIn(2)], labels' + [LogIn(3)];
    FourthSteps(2);
    ExtendRun(2, states', labels', LogIn(3), FourthIn(3));
    states', labels' := states' + [FourthIn(3)], labels' + [LogIn(3)];
  }

  lemma LengthOf(states: seq<State>, labels: seq<Label>)
    requires IsRun(2, states, labels)
    ensures |states| == |labels| + 1
  {
  }

  /** Two processes are logged in under id 1. */
  predicate ShareId(s: State) {
    && |s.procs| == 4 && |s.clients| == 3 && Published(s.procs[2].pc) && Published(s.procs[3].pc)
    && s.procs[2].id == s.procs[3].id == 1 && s.clients[1].state && s.clients[1].pid == 3
  }

  /**
    A run in which every login but the last is given a free id, and that ends with two
    processes that are logged in under id 1.
    */
  lemma TwoProcessesOneId() returns (states: seq<State>, labels: seq<Label>)
    ensures IsRun(2, states, labels) && |labels| == 59 && ShareId(states[59])
    ensures forall k :: 0 <= k < 56 ==> FreshId(states[k], labels[k])
    ensures !FreshId(states[56], labels[56])
  {
    var most, steps := WholeRun();
    FreshSoFar(most, steps);
    WholeSteps(55);
    FourthStarts();
    hide IsRun, FreshIds, FreshId, WellFormed, Enabled, Next, Shared, SharedStep, FourthIn, IsStep, ShareId;
    states, labels := LastThree(most, steps);
    forall k | 0 <= k < 56
      ensures FreshId(states[k], labels[k])
    {
      assert states[k] == states[..57][k] && labels[k] == labels[..56][k];
    }
    assert states[56] == states[..57][56];
  }

  lemma FreshSoFar(states: seq<State>, labels: seq<Label>)
    requires |states| == |labels| + 1 && FreshIds(states, labels)
    ensures forall k :: 0 <= k < |labels| ==> FreshId(states[k], labels[k])
  {
  }

  lemma FourthStarts()
    ensures Shared(56) == FourthIn(0) && !FreshId(FourthIn(0), LogIn(3)) && ShareId(FourthIn(3))
  {
  }
}
