/**
  The multi-process server (np_multi_proc.c) as a transition system.

  One parent accepts connections and forks a process per client. The processes share an
  array of client records, each with a semaphore, a one-slot mailbox and a row of user
  pipes. A message is handed over by taking the receiver's semaphore, filling its mailbox
  and raising SIGUSR1 (a text) or SIGUSR2 (a FIFO); the receiver's signal handler reads
  the mailbox and posts the semaphore.

  A process is known by its process number, an index of `procs`, and not by its client id:
  two processes with one id can be told apart. Pending signals are a set, since repeated
  signals need not queue (section 2.4.1 of POSIX.1-2017, System Interfaces).
  The test of `state` and the `kill` after it are one step, a process takes no step of its
  own while a signal is pending or in its handler, except for a `kill` it has come to, and a
  `sem_wait` that a handler interrupted goes on waiting.
  */
module Handoff {
  import opened Options

  datatype Signal = Usr1 | Usr2

  /** What a mailbox holds: a line of text, or the path of a FIFO (its number). */
  datatype Content = Words(text: string) | Path(name: nat)

  /** What a sender wants to hand over. */
  datatype Request = Tell(text: string) | Offer(name: nat)

  datatype Outcome = Written | Opened | Discarded

  /** How far one hand-over has come. `to` is the process the signal was sent to. */
  datatype Status =
    | Taken
    | Returned
    | Committed(to: nat)
    | Handled(to: nat, outcome: Outcome)
    | Finished(to: nat, outcome: Outcome)

  /** History of one semaphore: an entry for every time a sender took it, oldest first. */
  datatype Entry = Entry(sender: nat, senderId: nat, request: Request, status: Status)

  /** A line on a client's socket: the process that owns the socket and the bytes written. */
  datatype Line = Line(owner: nat, bytes: Content)

  /** One record of the shared array `client_list`. */
  datatype Client = Client(
    state: bool,
    pid: nat,
    lock: nat,
    mailbox: Content,
    fromId: nat,
    userPipe: map<nat, nat>,   // sender id -> FIFO whose read end is stored
    log: seq<Entry>,           // history, not in the source
    screen: seq<Line>)         // history: what handlers wrote to the socket

  /** Where a process goes once it has handed a message over (or got the lock back). */
  datatype After =
    | Shell
    | Resume(next: nat, text: string, leaving: bool)
    | OpenFifo

  datatype LoginStep = AskLock2 | AddOne | Publish | Rescan | FreeLock2
  datatype LogoutStep = AskAgain | Delete | SubOne
  datatype SendStep = SemWait | Fill | TestState | PostBack

  datatype Pc =
    // login, np_multi_proc.c:32-46
    | Login(login: LoginStep, greeting: string)
    // the shell waits for a line
    | Idle
    // the loop of `broadcast`, about to look at record `next`
    | Broadcast(next: nat, text: string, leaving: bool)
    // `create_user_pipe` before it asks for the receiver's lock; `held` is fifo_infor->lock
    | Naming(held: bool, target: nat)
    // one hand-over: sem_wait, strcpy, test and kill, sem_post for an absent receiver
    | Send(send: SendStep, to: nat, request: Request, after: After)
    // `open(file_path, O_WRONLY)` blocks until the receiver opens the FIFO
    | OpenWrite(target: nat, name: nat)
    // logout, np_multi_proc.c:49-55, and the sem_post after the farewell
    | Logout(logout: LogoutStep, farewell: string)
    | Leave
    | Exited

  datatype Handler = NoHandler | Running(signal: Signal) | Posting

  datatype Proc = Proc(id: nat, pc: Pc, stopped: bool, pending: set<Signal>, handler: Handler)

  datatype Parent = Accepting | AwaitLogin | Recheck

  /** `created` lists, for FIFO number k+1, the sender's id and the id it was made for. */
  datatype State = State(
    clients: seq<Client>,
    procs: seq<Proc>,
    parent: Parent,
    clientNum: int,
    minId: nat,
    loginPosts: nat,           // connect_state->lock
    lock2: nat,
    fifoLock: nat,
    created: seq<(nat, nat)>)  // fifo_infor->count is its length

  /** What a user does at the prompt. */
  datatype Command =
    | TellTo(id: nat, text: string)
    | Yell(text: string)
    | PipeTo(id: nat)
    | ReadPipe(id: nat)
    | Quit(farewell: string)

  datatype Label =
    | Accept(greeting: string)
    | ParentWakes
    | ParentRechecks
    | Start(p: nat, command: Command)
    | LogIn(p: nat)
    | LogOut(p: nat)
    | Loop(p: nat)
    | Name(p: nat)
    | HandOver(p: nat)
    | Deliver(p: nat, signal: Signal)
    | Handle(p: nat)
    | Rendezvous(p: nat, writer: nat)
    | PostMailbox(p: nat)

  // ---- The initial state: np_multi_proc.c:100-131 ----

  /** Record 0 stands for the server itself: `state` is 1 and its semaphore is never initialised. */
  function InitialClient(id: nat): Client {
    Client(id == 0, 0, if id == 0 then 0 else 1, Words(""), 0, map[], [], [])
  }

  function Init(n: nat): State {
    State(seq(n + 1, i requires 0 <= i => InitialClient(i)), [], Accepting, 0, 1, 0, 1, 1, [])
  }

  // ---- Reading a state ----

  function MaxId(s: State): int {
    |s.clients| - 1
  }

  function ContentOf(r: Request): Content {
    match r case Tell(text) => Words(text) case Offer(name) => Path(name)
  }

  function SignalOf(r: Request): Signal {
    match r case Tell(_) => Usr1 case Offer(_) => Usr2
  }

  /** A process that has its id and has not exited. */
  predicate HasId(pc: Pc) {
    !pc.Exited? && !(pc.Login? && pc.login.AskLock2?)
  }

  predicate Leaving(after: After) {
    after.Resume? && after.leaving
  }

  /** The part of its life in which a process's record says `state == 1`. */
  predicate Published(pc: Pc) {
    match pc
    case Login(step, _) => step.Rescan? || step.FreeLock2?
    case Broadcast(_, _, leaving) => !leaving
    case Send(_, _, _, after) => !Leaving(after)
    case Logout(step, _) => !step.SubOne?
    case Leave => false
    case Exited => false
    case _ => true
  }

  /** The process holds the semaphore of record pc.to. */
  predicate Holding(pc: Pc) {
    pc.Send? && !pc.send.SemWait?
  }

  /** A signal is pending or being handled. */
  predicate Busy(proc: Proc) {
    proc.pending != {} || proc.handler != NoHandler
  }

  /** Every id and index a state mentions is in range. */
  predicate WellFormed(s: State) {
    && |s.clients| >= 2
    && s.clients[0].state && s.clients[0].lock == 0
    && 1 <= s.minId <= MaxId(s)
    && (forall j :: 1 <= j < |s.clients| && s.clients[j].state ==> OwnedBy(s, j, s.clients[j].pid))
    && (forall p :: 0 <= p < |s.procs| ==> ProcFormed(s.procs[p], MaxId(s)))
  }

  /** Process q is logged in under id j. */
  predicate OwnedBy(s: State, j: nat, q: nat) {
    q < |s.procs| && s.procs[q].id == j && Published(s.procs[q].pc)
  }

  predicate ProcFormed(proc: Proc, max: int) {
    && (HasId(proc.pc) ==> 1 <= proc.id <= max)
    && (Busy(proc) ==> HasId(proc.pc))
    && PcFormed(proc.pc, max)
  }

  predicate PcFormed(pc: Pc, max: int) {
    match pc
    case Broadcast(next, _, _) => 1 <= next
    case Naming(_, target) => 1 <= target <= max
    case OpenWrite(target, _) => 1 <= target <= max
    case Send(step, to, request, after) =>
      && to <= max
      && (!step.SemWait? || request.Offer? ==> 1 <= to)
      && (request.Offer? <==> after.OpenFifo?)
      && (after.Resume? ==> 1 <= after.next && 1 <= to)
    case _ => true
  }

  // ---- Small updates ----

  function SetPc(s: State, p: nat, pc: Pc): State
    requires p < |s.procs|
  {
    s.(procs := s.procs[p := s.procs[p].(pc := pc)])
  }

  function SetClient(s: State, j: nat, c: Client): State
    requires j < |s.clients|
  {
    s.(clients := s.clients[j := c])
  }

  function LastEntry(log: seq<Entry>): Option<Entry> {
    if log == [] then None else Some(log[|log| - 1])
  }

  /** Records in the history how the newest hand-over went on. */
  function Mark(log: seq<Entry>, status: Status): (r: seq<Entry>)
    ensures |r| == |log|
  {
    if log == [] then [] else log[|log| - 1 := log[|log| - 1].(status := status)]
  }

  // ---- Steps of the parent: np_multi_proc.c:20-31, 62-66 ----

  function DoAccept(s: State, greeting: string): State {
    s.(parent := AwaitLogin, procs := s.procs + [Proc(0, Login(AskLock2, greeting), false, {}, NoHandler)])
  }

  // ---- A line typed at the prompt ----

  function DoStart(s: State, p: nat, c: Command): State
    requires WellFormed(s) && p < |s.procs| && s.procs[p].pc.Idle?
  {
    var me := s.procs[p].id;
    match c
    case TellTo(to, text) =>
      // cmd_tell: an error line for an unknown user, else wait for the receiver's lock
      if to > MaxId(s) || !s.clients[to].state then s else SetPc(s, p, Send(SemWait, to, Tell(text), Shell))
    case Yell(text) => SetPc(s, p, Broadcast(1, text, false))
    case PipeTo(to) =>
      // single_cmd and ordinary_pipe create a pipe only to a present user without one
      if to == 0 || to > MaxId(s) || !s.clients[to].state || me in s.clients[to].userPipe then s
      else SetPc(s, p, Naming(false, to))
    case ReadPipe(from) =>
      if from == 0 || from > MaxId(s) || !s.clients[from].state then s
      else SetClient(s, me, s.clients[me].(userPipe := s.clients[me].userPipe - {from}))
    case Quit(farewell) =>
      s.(procs := s.procs[p := s.procs[p].(pc := Logout(AskAgain, farewell), stopped := true)])
  }

  // ---- Login and logout ----

  function LeastFreeFrom(clients: seq<Client>, k: nat): (r: Option<nat>)
    ensures r.Some? ==> k <= r.value < |clients| && !clients[r.value].state
    ensures r.Some? ==> forall i :: k <= i < r.value ==> clients[i].state
    ensures r.None? ==> forall i :: k <= i < |clients| ==> clients[i].state
    decreases |clients| - k
  {
    if k >= |clients| then None
    else if !clients[k].state then Some(k)
    else LeastFreeFrom(clients, k + 1)
  }

  function NextHint(s: State): nat {
    match LeastFreeFrom(s.clients, 1) case Some(k) => k case None => s.minId
  }

  /** delete_client_infor: clears the leaver's record, its row and its column of user pipes. */
  function Deleted(clients: seq<Client>, id: nat): (r: seq<Client>)
    requires id < |clients|
    ensures |r| == |clients|
  {
    seq(|clients|, i requires 0 <= i < |clients| =>
      if i == id then clients[i].(state := false, userPipe := map[])
      else if i > 0 && clients[i].state then clients[i].(userPipe := clients[i].userPipe - {id})
      else clients[i])
  }

  predicate LogInEnabled(s: State, p: nat)
    requires p < |s.procs|
  {
    s.procs[p].pc.Login? && !Busy(s.procs[p]) && (s.procs[p].pc.login.AskLock2? ==> s.lock2 > 0)
  }

  function DoLogIn(s: State, p: nat): State
    requires WellFormed(s) && p < |s.procs| && LogInEnabled(s, p)
  {
    var proc := s.procs[p];
    var g := proc.pc.greeting;
    match proc.pc.login
    case AskLock2 => s.(lock2 := s.lock2 - 1, procs := s.procs[p := proc.(pc := Login(AddOne, g), id := s.minId)])
    case AddOne => SetPc(s, p, Login(Publish, g)).(clientNum := s.clientNum + 1)
    case Publish =>
      SetClient(SetPc(s, p, Login(Rescan, g)), proc.id, s.clients[proc.id].(state := true, pid := p))
    case Rescan => SetPc(s, p, Login(FreeLock2, g)).(minId := NextHint(s), loginPosts := s.loginPosts + 1)
    case FreeLock2 => SetPc(s, p, Broadcast(1, g, false)).(lock2 := s.lock2 + 1)
  }

  predicate LogOutEnabled(s: State, p: nat)
    requires p < |s.procs|
  {
    && (s.procs[p].pc.Logout? || s.procs[p].pc.Leave?) && !Busy(s.procs[p])
    && (s.procs[p].pc.Logout? && s.procs[p].pc.logout.AskAgain? ==> s.lock2 > 0)
  }

  function DoLogOut(s: State, p: nat): State
    requires WellFormed(s) && p < |s.procs| && LogOutEnabled(s, p)
  {
    var proc := s.procs[p];
    match proc.pc
    case Leave => SetPc(s, p, Exited).(lock2 := s.lock2 + 1)
    case Logout(step, f) =>
      match step
      case AskAgain => SetPc(s, p, Logout(Delete, f)).(lock2 := s.lock2 - 1)
      case Delete => SetPc(s, p, Logout(SubOne, f)).(clients := Deleted(s.clients, proc.id))
      case SubOne =>
        SetPc(s, p, Broadcast(1, f, true)).(
          clientNum := s.clientNum - 1, minId := if proc.id < s.minId then proc.id else s.minId)
  }

  // ---- The loop of `broadcast`: np_multi_proc.c:967-985 ----

  function BroadcastNext(s: State, me: nat, next: nat, text: string, leaving: bool): Pc {
    if next > MaxId(s) then (if leaving then Leave else Idle)
    else if next < |s.clients| && s.clients[next].state && next != me then
      Send(SemWait, next, Tell(text), Resume(next + 1, text, leaving))
    else Broadcast(next + 1, text, leaving)
  }

  predicate LoopEnabled(s: State, p: nat)
    requires p < |s.procs|
  {
    s.procs[p].pc.Broadcast? && !Busy(s.procs[p])
  }

  function DoLoop(s: State, p: nat): State
    requires p < |s.procs| && LoopEnabled(s, p)
  {
    var Broadcast(next, text, leaving) := s.procs[p].pc;
    SetPc(s, p, BroadcastNext(s, s.procs[p].id, next, text, leaving))
  }

  // ---- A fresh FIFO name: np_multi_proc.c:831-838 ----

  predicate NameEnabled(s: State, p: nat)
    requires p < |s.procs|
  {
    s.procs[p].pc.Naming? && !Busy(s.procs[p]) && (!s.procs[p].pc.held ==> s.fifoLock > 0)
  }

  function DoName(s: State, p: nat): State
    requires p < |s.procs| && NameEnabled(s, p)
  {
    var Naming(held, to) := s.procs[p].pc;
    if !held then SetPc(s, p, Naming(true, to)).(fifoLock := s.fifoLock - 1)
    else SetPc(s, p, Send(SemWait, to, Offer(|s.created| + 1), OpenFifo)).(
           created := s.created + [(s.procs[p].id, to)], fifoLock := s.fifoLock + 1)
  }

  // ---- One hand-over: np_multi_proc.c:839-849, 915-922, 974-982 ----

  function AfterSend(after: After, to: nat, request: Request): Pc {
    match after
    case Shell => Idle
    case Resume(next, text, leaving) => Broadcast(next, text, leaving)
    case OpenFifo => if request.Offer? then OpenWrite(to, request.name) else Idle
  }

  function AfterReturn(after: After): Pc {
    match after
    case Resume(next, text, leaving) => Broadcast(next, text, leaving)
    case _ => Idle
  }

  /**
    A signal that arrives while the process is in `kill` does not stop that `kill`, so the test
    of `state` and the `kill` after it are carried out even if a signal is pending.
    */
  predicate HandOverEnabled(s: State, p: nat)
    requires WellFormed(s) && p < |s.procs|
  {
    && s.procs[p].pc.Send?
    && (Busy(s.procs[p]) ==> s.procs[p].pc.send.TestState? && s.procs[p].handler == NoHandler)
    && (s.procs[p].pc.send.SemWait? ==> s.clients[s.procs[p].pc.to].lock > 0)
  }

  function DoHandOver(s: State, p: nat): State
    requires WellFormed(s) && p < |s.procs| && HandOverEnabled(s, p)
  {
    match s.procs[p].pc.send
    case SemWait => DoTake(s, p)
    case Fill => DoFill(s, p)
    case TestState => DoKill(s, p)
    case PostBack => DoPostBack(s, p)
  }

  function DoTake(s: State, p: nat): State
    requires WellFormed(s) && p < |s.procs| && HandOverEnabled(s, p) && s.procs[p].pc.send.SemWait?
  {
    var Send(_, to, r, after) := s.procs[p].pc;
    var c := s.clients[to];
    SetClient(SetPc(s, p, Send(Fill, to, r, after)), to,
              c.(lock := c.lock - 1, log := c.log + [Entry(p, s.procs[p].id, r, Taken)]))
  }

  function DoFill(s: State, p: nat): State
    requires WellFormed(s) && p < |s.procs| && HandOverEnabled(s, p) && s.procs[p].pc.send.Fill?
  {
    var Send(_, to, r, after) := s.procs[p].pc;
    var c := s.clients[to];
    SetClient(SetPc(s, p, Send(TestState, to, r, after)), to,
              c.(mailbox := ContentOf(r), fromId := if r.Offer? then s.procs[p].id else c.fromId))
  }

  function DoPostBack(s: State, p: nat): State
    requires WellFormed(s) && p < |s.procs| && HandOverEnabled(s, p) && s.procs[p].pc.send.PostBack?
  {
    var Send(_, to, r, after) := s.procs[p].pc;
    var c := s.clients[to];
    SetClient(SetPc(s, p, AfterReturn(after)), to, c.(lock := c.lock + 1, log := Mark(c.log, Returned)))
  }

  function Raise(procs: seq<Proc>, q: nat, signal: Signal): (r: seq<Proc>)
    requires q < |procs|
    ensures |r| == |procs|
  {
    procs[q := procs[q].(pending := procs[q].pending + {signal})]
  }

  function DoKill(s: State, p: nat): State
    requires WellFormed(s) && p < |s.procs| && HandOverEnabled(s, p) && s.procs[p].pc.send.TestState?
  {
    var Send(_, to, r, after) := s.procs[p].pc;
    var c := s.clients[to];
    if c.state then
      var sent := SetPc(s, p, AfterSend(after, to, r));
      sent.(procs := Raise(sent.procs, c.pid, SignalOf(r)),
            clients := s.clients[to := c.(log := Mark(c.log, Committed(c.pid)))])
    else SetPc(s, p, Send(PostBack, to, r, after))
  }

  // ---- The signal handlers: np_multi_proc.c:852-861, 987-994 ----

  function DoDeliver(s: State, p: nat, signal: Signal): State
    requires p < |s.procs|
  {
    s.(procs := s.procs[p := s.procs[p].(pending := s.procs[p].pending - {signal}, handler := Running(signal))])
  }

  predicate HandleEnabled(s: State, p: nat)
    requires WellFormed(s) && p < |s.procs|
  {
    s.procs[p].handler == Running(Usr1)
  }

  /** msg_handler up to the post: writes the mailbox unless the client has stopped. */
  function DoHandle(s: State, p: nat): State
    requires WellFormed(s) && p < |s.procs| && HandleEnabled(s, p)
  {
    var proc := s.procs[p];
    var c := s.clients[proc.id];
    var written := if proc.stopped then [] else [Line(p, c.mailbox)];
    SetClient(s.(procs := s.procs[p := proc.(handler := Posting)]), proc.id,
              c.(screen := c.screen + written,
                 log := Mark(c.log, Handled(p, if proc.stopped then Discarded else Written))))
  }

  predicate RendezvousEnabled(s: State, p: nat, w: nat)
    requires WellFormed(s) && p < |s.procs|
  {
    && s.procs[p].handler == Running(Usr2)
    && w < |s.procs| && w != p
    && !Busy(s.procs[w])
    && s.procs[w].pc.OpenWrite?
    && s.clients[s.procs[p].id].mailbox == Path(s.procs[w].pc.name)
  }

  /** user_pipe_handler: both opens of the FIFO return, and the read end is stored. */
  function DoRendezvous(s: State, p: nat, w: nat): State
    requires WellFormed(s) && p < |s.procs| && RendezvousEnabled(s, p, w)
  {
    var proc := s.procs[p];
    var c := s.clients[proc.id];
    var name := s.procs[w].pc.name;
    SetClient(s.(procs := s.procs[p := proc.(handler := Posting)][w := s.procs[w].(pc := Idle)]), proc.id,
              c.(userPipe := if proc.stopped then c.userPipe else c.userPipe[c.fromId := name],
                 log := Mark(c.log, Handled(p, if proc.stopped then Discarded else Opened))))
  }

  /** The handler's sem_post and its return. */
  function DoPost(s: State, p: nat): State
    requires WellFormed(s) && p < |s.procs| && s.procs[p].handler.Posting?
  {
    var proc := s.procs[p];
    var c := s.clients[proc.id];
    var done := match LastEntry(c.log)
                case Some(Entry(_, _, _, Handled(to, outcome))) => Mark(c.log, Finished(to, outcome))
                case _ => c.log;
    SetClient(s.(procs := s.procs[p := proc.(handler := NoHandler)]), proc.id,
              c.(lock := c.lock + 1, log := done))
  }

  // ---- One step ----

  predicate Enabled(s: State, l: Label)
    requires WellFormed(s)
  {
    match l
    case Accept(_) => s.parent.Accepting?
    case ParentWakes => s.parent.AwaitLogin? && s.loginPosts > 0
    case ParentRechecks => s.parent.Recheck? && s.clientNum < MaxId(s)
    case Start(p, c) => p < |s.procs| && s.procs[p].pc.Idle? && !Busy(s.procs[p])
    case LogIn(p) => p < |s.procs| && LogInEnabled(s, p)
    case LogOut(p) => p < |s.procs| && LogOutEnabled(s, p)
    case Loop(p) => p < |s.procs| && LoopEnabled(s, p)
    case Name(p) => p < |s.procs| && NameEnabled(s, p)
    case HandOver(p) => p < |s.procs| && HandOverEnabled(s, p)
    case Deliver(p, signal) => p < |s.procs| && signal in s.procs[p].pending && s.procs[p].handler.NoHandler?
    case Handle(p) => p < |s.procs| && HandleEnabled(s, p)
    case Rendezvous(p, w) => p < |s.procs| && RendezvousEnabled(s, p, w)
    case PostMailbox(p) => p < |s.procs| && s.procs[p].handler.Posting?
  }

  function Next(s: State, l: Label): State
    requires WellFormed(s) && Enabled(s, l)
  {
    match l
    case Accept(greeting) => DoAccept(s, greeting)
    case ParentWakes => s.(parent := Recheck, loginPosts := s.loginPosts - 1)
    case ParentRechecks => s.(parent := Accepting)
    case Start(p, c) => DoStart(s, p, c)
    case LogIn(p) => DoLogIn(s, p)
    case LogOut(p) => DoLogOut(s, p)
    case Loop(p) => DoLoop(s, p)
    case Name(p) => DoName(s, p)
    case HandOver(p) => DoHandOver(s, p)
    case Deliver(p, signal) => DoDeliver(s, p, signal)
    case Handle(p) => DoHandle(s, p)
    case Rendezvous(p, w) => DoRendezvous(s, p, w)
    case PostMailbox(p) => DoPost(s, p)
  }

  /** A run: states[0] is the initial state for ids 1..n and labels[k] leads from states[k] to states[k+1]. */
  ghost predicate IsRun(n: nat, states: seq<State>, labels: seq<Label>) {
    && n >= 1
    && |states| == |labels| + 1
    && states[0] == Init(n)
    && forall k :: 0 <= k < |labels| ==>
         WellFormed(states[k]) && Enabled(states[k], labels[k]) && states[k + 1] == Next(states[k], labels[k])
  }
}
