# Verification of the remote working ground servers

This project models, in Dafny 4.11, the two shell servers of the repository and the console
that shows their output:

* `np_multi_proc.c`, a server with one process per client, where messages and user pipes are
  handed over through mailboxes, semaphores and signals;
* `np_single_proc.c`, a server that serves all clients from one `select` loop and wires
  every command line itself (ordinary pipes, numbered pipes `|n` and `!n`, user pipes `<id`
  and `>id`, redirection `> file`);
* `console.cpp`, whose HTML escaping works in place.

`dafny verify dfyconfig.toml` checks everything.

## How the files hang together

**Hand-over protocol** (`Handoff*.dfy`). The multi-process server is a transition system: N
processes, one record per client id with a semaphore, a one-slot mailbox and a row of user
pipes, pending signals as a set. A run is any interleaving. The assumptions are those of the
code's comments: the test of `state` and the `kill` after it are one step, a process takes no
step of its own while a signal is pending or in its handler, except that it carries out a `kill`
it has come to, and an interrupted `sem_wait` goes on waiting. Every semaphore has a history, so
that delivery can be stated: `screen` is what handlers wrote, `log` has one entry for every time
a sender took the semaphore. The results are: exactly one token per mailbox in every state of
every run, exactly-once delivery in lock order, whom a yell, a greeting, a farewell, a tell and
an offer reach (`HandoffTalks`), admission control, ids, how stored user pipes come and go
(`HandoffRows`), FIFO rendezvous, exactly which offers of FIFOs block (`HandoffKnots`,
`HandoffReach`), that nothing else can (`HandoffProgress`), and a bound on the number of steps.
`HandoffCrossed` and `HandoffShared` are whole runs, state by state: two clients that block each
other, and two processes under one id.

**Free-slot hints** (`Hint.dfy`). `min_id` and `min_input_point` are one algorithm. The hint is
right in every run that keeps a slot free; it names a slot in use exactly when, since the
table was filled, only higher slots were given back. A run that ends with two users in one
slot is given for every table size. `HandoffHint` and `LedgerFull` carry this over to the ids
of the two servers, for all interleavings and all runs.

**Numbered pipes** (`SlotTable.dfy`). The array of count-downs, in a class on arrays whose
methods follow the C functions, and the proof that it is a map from the number of a future
line to the pipe that this line will read, over whole sessions.

**Wiring** (`Kernel.dfy`, `Pipeline.dfy`, `Wiring.dfy`, `Chains.dfy`). A process is a map from
descriptors to open ends; `fork` copies it, `dup2` and `close` change it. The methods follow
`single_cmd`, `ordinary_pipe` and what they call, statement by statement; their contracts give
the exact descriptors of every started command and of the server. `Chains` concludes that a
pipeline is a linear chain whose links nobody else holds.

**The single-process server** (`Ledger*.dfy`, `Server.dfy`). A ledger gives every open
descriptor one role (socket, end of a numbered pipe of a client's slot, user pipe from one
client to another, or lost, with the reason) and every pipe the reason it was made. The
invariant is kept by login, logout, counted lines, single commands, pipelines and the end of
commands, so it holds in every run that keeps an id and, per client, a slot free. The class
`Server` carries the steps out; its methods are tied to the steps. From the invariant follow the
ownership of user pipes, conservation of descriptors with exactly the lines that leave one
behind (`LedgerLeaks`), correct ids, and when the reader of a numbered pipe or of a user pipe
sees end-of-file, with exactly the commands that hold it back (`LedgerEnds`, `LedgerWriters`).
`LedgerStreams` says what every command has on its standard descriptors, told from the line as
it was typed, and `LedgerDeadlines` that over whole runs the writer of a numbered pipe meets the
command of the line that it is meant for. `LedgerSelf` says exactly when the client table is
still true after `<me >me`, `LedgerHangUp` what a client leaves behind that hangs up, and
`HeldBack` is a session in which a reader waits for another client's command.

**User-pipe messages** (`UserPipeMessages.dfy`). Exactly when what the server announces is what
it does.

**Command lines** (`Decimal.dfy`, `CommandLine.dfy`, `PrintedCommand.dfy`, `RunShell.dfy`).
Decimal printing and `atoi` are inverse, and `string_split` gives back every written command.
`RunShell.dfy` goes from the bytes that a client sent to what the server does: every written
command is served as what it is, with its own commands started and wired.

**Environment** (`Environment.dfy`, `EnvironmentList.dfy`). Lazy switching of the environment
refines switching before every line, with the exact exception, and what a client sees is what it
set last. The list of variables is a sequence there; `EnvironmentList` has the loop of
`delete_env_var` on linked nodes and says exactly when it is the filter that it is meant to be.

**Console** (`Html.dfy`). The four in-place passes are one simultaneous substitution, and a
reader of character references sees the escaped text as it would have seen the text itself.

## Where the code does not do what it seems to promise

Each of these is a theorem below; the models keep the code as it is.

* Once a table of ids or slots has been full, its hint can name an entry in use
  (`Hint.StaleExactlyWhen`, `Hint.FullTableMisleads`).
* `tell` to user 0, or to anything that `atoi` reads as 0, waits for ever on a semaphore that
  was never initialised; it is modelled as a semaphore of value 0
  (`HandoffProgress.TellZeroBlocks`).
* Offers of FIFOs can block for ever. A knot of processes that wait for each other begins
  exactly when the `kill` for an offer finds its sender waiting for the receiver already, itself
  or through others (`HandoffKnots.KnotBeginsExactly`, `HandoffKnots.KnotsExactly`), and lasts:
  two clients that offer each other a FIFO at once (`HandoffCrossed.CrossedOffersBlock`), or a
  client that offers one to itself (`HandoffReach.SelfOfferBlocks`). Nothing else blocks
  (`HandoffProgress.RestsExactlyWhen`).
* When the table of ids has been full, two clients can share one id, in both servers
  (`LedgerFull.TwoClientsOneId`, `LedgerFull.NextIdTakenExactlyWhen`,
  `HandoffShared.TwoProcessesOneId`, `HandoffHint.StaleExactlyWhen`).
* In the single-process server every command inherits the live numbered pipes of all other
  clients, so their readers wait for it as well (`LedgerEnds.OthersInherit`,
  `LedgerWriters.WritersExactly`); `HeldBack.HeldBackSession` is a session that ends so. When
  only one client types, the reader waits for the right commands only
  (`LedgerWriters.SoleClientSeesEnd`).
* A pipeline with `> file` and also `|n`, `!n` or a new user pipe leaves descriptors open that
  nothing records (`LedgerLeaks.StraysExactlyWhen`).
* A numbered pipe that runs out on a line without an external command, which may be `exit`,
  stays open at both ends for good (`LedgerLeaks.NumberedEndsExactly`,
  `LedgerLeaks.RunOutStaysExactlyWhen`); `NpSingle.LapsingSession` is a session that ends so.
  These two are the only ways in which a step of a run loses a descriptor
  (`LedgerLeaks.StrandedExactly`).
* A client that hangs up leaves both ends of the numbered pipe that its last line made, if that
  made one, open for good (`LedgerHangUp.HangUpLeavesExactly`, `NpSingle.HangUpSession`).
* `<me >me` as a command on its own, with a pipe from me to me, stores and closes whatever an
  array happened to hold (`LedgerSelf.SingleKeepsBooksExactlyWhen`).
* "Received" and "piped" are announced before it is known whether the line uses the pipe
  (`UserPipeMessages.SingleSaysWhatItDoes`, `UserPipeMessages.SelfPipeDisagrees`).
* In `ls > f | cat` the output file is `cat` (`CommandLine.FileFollowsLastSeparator`).
* When a client leaves that is the last user of two variables or more, the list of variables
  keeps nodes that were freed (`EnvironmentList.DanglingExactlyWhen`,
  `EnvironmentList.TwoOwnVariables`).
* A client that gets the id of the client served last can see that client's environment, and
  variables whose last user left keep their value (`Environment.ReissuedIdSeesOwnExactlyWhen`,
  `Environment.LeaversValueStays`).
* The escaping loop ends only if the replacement does not contain the character replaced
  (`Html.RoundEndsExactlyWhen`), and `&` is not escaped (`Html.EscapingIsUndoneExactlyWhen`).

## Model

| member | source | states |
|---|---|---|
| `HandoffAdmission.AdmissionHolds` | code/remote_working_ground_server/np_multi_proc.c:20-66 | In every state of every run at most one process is between `sem_wait` and `sem_post` of `lock2`, and `client_num` is between 0 and the number of ids and counts the processes between their increment and their decrement; this rests on the parent waiting for each child's login post before it looks at the capacity again |
| `HandoffTokens.RunSafe` | code/remote_working_ground_server/np_multi_proc.c:830-861 | The protocol invariant (one owner per id in use, one token per mailbox, histories in order) holds in every state of every run that never hands out an id in use |
| `HandoffTokens.TokenConservation` | code/remote_working_ground_server/np_multi_proc.c:967-994 | In every interleaving a client's lock is 0 or 1, and lock + senders past `sem_wait` + signals pending or in their handler is 1; a receiver has at most one such signal, so none coalesces |
| `HandoffTokens.NothingIsLost` | code/remote_working_ground_server/np_multi_proc.c:915-922 | While a sender holds a mailbox its receiver has no signal pending or running, and at the `kill` the mailbox still holds what this sender wrote: no mailbox is overwritten before it is read |
| `HandoffTokens.DeliveredExactlyOnce` | code/remote_working_ground_server/np_multi_proc.c:893-924 | What handlers wrote to an id's socket is exactly the committed messages, unchanged, once each, in the order in which senders took the lock; all but the newest are settled, a settled text was written unless it was discarded, and it is discarded only by a receiver that had set `stopped` |
| `HandoffTokens.StepExtends` | code/remote_working_ground_server/np_multi_proc.c:987-994 | No step rewrites the history of a mailbox: entries are only added, and an entry only moves forward (taken, returned or committed, handled, finished) |
| `HandoffTalks.YellReaches` | code/remote_working_ground_server/np_multi_proc.c:967-985 | Over runs, from the step in which a process takes up a yell until it is back at its prompt: every other id that stays in use gets exactly one entry from it, with this text, committed to the process of that id; any other gets at most one, and its own id none |
| `HandoffTalks.GreetingReaches` | code/remote_working_ground_server/np_multi_proc.c:180-190 | The same for a newcomer's greeting, from its connection to its first prompt |
| `HandoffTalks.FarewellReaches` | code/remote_working_ground_server/np_multi_proc.c:205-211 | The same for a farewell, from the line with which the user quits until the process has exited |
| `HandoffTalks.TellReaches` | code/remote_working_ground_server/np_multi_proc.c:893-924 | From the step in which a process takes up a tell until it is back at its prompt: the id told, if it stays in use, gets exactly one entry, with this text, committed to its process; no other id gets any |
| `HandoffTalks.PipeReaches` | code/remote_working_ground_server/np_multi_proc.c:830-850 | The same for `>id`: exactly one offer of a FIFO to that id, and none if it has a pipe from the sender already |
| `HandoffIds.NeverFullGivesFreshIds` | code/remote_working_ground_server/np_multi_proc.c:32-41 | In every run that keeps an id free, no id is handed out while it is in use, and whenever `lock2` is free `min_id` is the least free id |
| `HandoffIds.ClientNumCountsIds` | code/remote_working_ground_server/np_multi_proc.c:48-60 | Whenever `lock2` is free `client_num` is the number of ids with `state` 1, and different ids in use belong to different processes |
| `HandoffPipes.RendezvousIsSafe` | code/remote_working_ground_server/np_multi_proc.c:852-861 | Whenever the handler opens a FIFO, it is the FIFO that the sender named by `from_id` made for this client in this hand-over; it is stored under that id, where nothing was stored, unless the client has stopped |
| `HandoffPipes.StoredPipesAreDistinct` | code/remote_working_ground_server/np_multi_proc.c:830-838 | FIFO names never repeat: two stored user pipes are never the same FIFO |
| `HandoffPipes.UnlockedTestStaysTrue` | code/remote_working_ground_server/np_multi_proc.c:413-417 | The test that there is no pipe yet, which a sender makes without a lock, stays true until its own request is handled |
| `HandoffRows.EntryMoves` | code/remote_working_ground_server/np_multi_proc.c:192-203 | In every step: a pipe is stored exactly by the rendezvous of its two clients, unless the receiver has stopped; it is taken out exactly when its reader types `<id`, or when one of the two logs out; until then it is the same FIFO |
| `HandoffRows.PipesJoinUsers` | code/remote_working_ground_server/np_multi_proc.c:192-203 | In every state of every run a stored user pipe joins two ids in use |
| `HandoffRows.QuitWritesNothing` | code/remote_working_ground_server/np_multi_proc.c:987-994 | From the line with which a user quits its process writes nothing to any client's socket |
| `HandoffKnots.KnotLasts` | code/remote_working_ground_server/np_multi_proc.c:842-858 | A knot, that is a non-empty set of processes each of which has to open a FIFO of another or the same one in the set, loses nobody in any step of any process |
| `HandoffKnots.SelfWaitBegins` | code/remote_working_ground_server/np_multi_proc.c:842-844 | A process waits for itself exactly from the step in which it signals its own offer to itself, and then for ever |
| `HandoffKnots.KnotBeginsExactly` | code/remote_working_ground_server/np_multi_proc.c:842-844 | A knot is there after a step if and only if there was one before, or the step is the `kill` for an offer whose sender waits for the receiver already, through any number of others, or is the receiver |
| `HandoffKnots.CloserIsOffered` | code/remote_working_ground_server/np_multi_proc.c:842-844 | A sender that closes a knot with an offer to another client has the signal of an offer to itself pending |
| `HandoffKnots.KnotsExactly` | code/remote_working_ground_server/np_multi_proc.c:830-861 | In every state of every run there is a knot if and only if some earlier step was such a `kill` |
| `HandoffCrossed.CrossedOffersBlock` | code/remote_working_ground_server/np_multi_proc.c:842-860 | A run of 38 steps from the start of the server, after which two clients that offered each other a FIFO wait for each other, and neither can ever be served |
| `HandoffReach.ServedExactlyWhen` | code/remote_working_ground_server/np_multi_proc.c:852-861 | A process that was offered a FIFO can still come to its rendezvous, by some sequence of steps, if and only if it is in no knot |
| `HandoffReach.OthersAreServed` | code/remote_working_ground_server/np_multi_proc.c:852-861 | In every state of every run in which no `kill` has closed a knot, every offer under way can come to its rendezvous |
| `HandoffReach.SelfOfferBlocks` | code/remote_working_ground_server/np_multi_proc.c:413-417 | A run of 14 steps from the start of the server, after which a client waits for itself and can never be served |
| `HandoffProgress.RestOrProgress` | code/remote_working_ground_server/np_multi_proc.c:842-922 | In every state that the protocol can reach and in which there is no knot, some step already begun can be taken, or every process waits for its user, no signal is pending and all locks are free |
| `HandoffProgress.RestsExactlyWhen` | code/remote_working_ground_server/np_multi_proc.c:842-861 | In every state of every run in which no step already begun can be taken, everything is at rest if and only if there is no knot |
| `HandoffProgress.NoDeadlock` | code/remote_working_ground_server/np_multi_proc.c:967-994 | In every run in which no `kill` closes a knot, messages, logins, logouts and offers of FIFOs cannot deadlock |
| `HandoffProgress.TellZeroBlocks` | code/remote_working_ground_server/np_multi_proc.c:893-924 | A process waits for the semaphore of record 0 exactly from the moment its user tells user 0, and never stops waiting |
| `HandoffProgress.StepMoves` | code/remote_working_ground_server/np_multi_proc.c:967-985 | Every step that goes on with something begun lowers a measure; a new connection or line raises it by a fixed amount at most |
| `HandoffProgress.TrafficEnds` | code/remote_working_ground_server/np_multi_proc.c:48-60 | Every run has at most a fixed multiple of steps of the number of connections and lines typed in it |
| `Hint.RunKeepsNoneBelow` | code/remote_working_ground_server/np_single_proc.c:240-245 | In every run no free entry lies below the hint |
| `Hint.RoomKeepsHintRight` | code/remote_working_ground_server/np_single_proc.c:753-758 | In every run that keeps an entry free the hint is the lowest free entry throughout |
| `Hint.StaleExactlyWhen` | code/remote_working_ground_server/np_single_proc.c:56-58 | The hint names an entry in use if and only if some take filled the table and since then only entries above the one it took were given back |
| `Hint.FullTableMisleads` | code/remote_working_ground_server/np_single_proc.c:240-245 | For every size and every two entries a < b: fill, give a back, take, give b back; then b is free but the hint names a, which is in use |
| `HandoffHint.StepFollows` | code/remote_working_ground_server/np_multi_proc.c:32-60 | Every step of the multi-process server does nothing to the ids, or completes a take or a give of module Hint that hits no other user |
| `HandoffHint.StaleExactlyWhen` | code/remote_working_ground_server/np_multi_proc.c:32-60 | In every interleaving in which no login was given an id in use, whenever `lock2` is free the next login would be given one if and only if some login filled the table and since then only ids above its own were given back |
| `HandoffShared.TwoProcessesOneId` | code/remote_working_ground_server/np_multi_proc.c:32-60 | A run of 59 steps of the multi-process server with two ids that ends with two processes logged in under id 1; every login before the last was given a free id |
| `LedgerFull.NextIdTakenExactlyWhen` | code/remote_working_ground_server/np_single_proc.c:227-246 | The same for every run of the single-process server, with or without room |
| `LedgerFull.TwoClientsOneId` | code/remote_working_ground_server/np_single_proc.c:49-61 | A run of the single-process server with two ids that ends with two connections under id 1 |
| `SlotTable.CrossPipe.constructor` | code/remote_working_ground_server/np_single_proc.c:274-284 | A new table has only free slots, no expired pipe, hint 0 and an empty snapshot |
| `SlotTable.CrossPipe.Tick` | code/remote_working_ground_server/np_single_proc.c:313-325 | The counting loop on the array: every count goes down, the last one that runs out is reported, the positions still waiting are collected in order |
| `SlotTable.CrossPipe.CountDownAndCheck` | code/remote_working_ground_server/np_single_proc.c:308-335 | The whole of count_down_and_check, arrays and fields, equals the specification `CountDown` |
| `SlotTable.CrossPipe.UpdateCrossPipeFd` | code/remote_working_ground_server/np_single_proc.c:746-759 | Stores count and descriptors at the hint and rescans for the lowest free slot |
| `SlotTable.CrossPipe.FindSameCrossPipe` | code/remote_working_ground_server/np_single_proc.c:761-775 | Returns the first recorded slot with count abs(n) and its descriptors, or -1 |
| `SlotTable.OneExpires` | code/remote_working_ground_server/np_single_proc.c:315-319 | At most one pipe runs out on a line: a slot with count 1 is the slot that is reported |
| `SlotTable.CountDownRefines` | code/remote_working_ground_server/np_single_proc.c:308-335 | Counting down advances the line number and pops exactly the pipe of the line reached; the snapshot lists exactly the live slots |
| `SlotTable.FindRefines` | code/remote_working_ground_server/np_single_proc.c:761-775 | Looking for `\|n` finds a pipe if and only if line now+n has one, and then that one |
| `SlotTable.UpdateRefines` | code/remote_working_ground_server/np_single_proc.c:746-759 | Inserting is insertion under line now+n into the map if and only if the hint names a free slot; otherwise the pipe in that slot is dropped |
| `SlotTable.TableIsHintAllocator` | code/remote_working_ground_server/np_single_proc.c:332-334 | An expiry and an insertion are the give and the take of module Hint, so its exact conditions hold for the slots |
| `SlotTable.LineRefines` | code/remote_working_ground_server/np_single_proc.c:286-335 | One line keeps the table well formed and does to the map what the line means |
| `SlotTable.SessionIsMap` | code/remote_working_ground_server/np_single_proc.c:286-335 | For every session that keeps a slot free, the table holds after each line exactly the pipes that later lines will read, each under its line |
| `Pipeline.CloseCrossPipeFd` | code/remote_working_ground_server/np_single_proc.c:734-744 | Closes both ends of every recorded slot except slot `pos`, and nothing else |
| `Pipeline.ReadExpired` | code/remote_working_ground_server/np_single_proc.c:726-732 | The first command reads the expired pipe on its standard input and keeps no other end of it |
| `Pipeline.ConnectChild` | code/remote_working_ground_server/np_single_proc.c:710-724 | What close_and_connect_fd leaves a command with, for every position in the pipeline |
| `Pipeline.WireInput` | code/remote_working_ground_server/np_single_proc.c:607-627 | The first command's standard input: expired pipe, user pipe, /dev/null or the client's socket, by the code's priorities |
| `Pipeline.WireLast` | code/remote_working_ground_server/np_single_proc.c:628-655 | The last command's standard output and error, for `\|n`, `!n`, `> file`, `>id` and none |
| `Pipeline.OrdinaryChild` | code/remote_working_ground_server/np_single_proc.c:601-660 | The exact descriptors of any stage of a pipeline when it is executed |
| `Pipeline.SingleChild` | code/remote_working_ground_server/np_single_proc.c:476-540 | The exact descriptors of a command on its own when it is executed |
| `Wiring.Shell.DropInput` | code/remote_working_ground_server/np_single_proc.c:666-676 | The server gives up exactly what the first command took over, and clears the user-pipe entry |
| `Wiring.Shell.ChoosePipe` | code/remote_working_ground_server/np_single_proc.c:587-596 | The last stage gets the pipe of a matching count-down, a new pipe, or none |
| `Wiring.Shell.CommitLast` | code/remote_working_ground_server/np_single_proc.c:677-696 | What the server records and keeps open after the last fork |
| `Wiring.Shell.OrdinaryPipe` | code/remote_working_ground_server/np_single_proc.c:568-708 | For every pipeline of two or more stages the fork loop starts exactly the commands of a chain, each with exactly the listed descriptors, and leaves the server with its old descriptors less the input taken over plus what it recorded; with a file that cannot be opened nothing changes |
| `Wiring.Shell.SingleCmd` | code/remote_working_ground_server/np_single_proc.c:456-566 | The same for a single command, including the junk that `<me >me` stores |
| `Chains.PipelineIsChain` | code/remote_working_ground_server/np_single_proc.c:581-701 | The standard output of stage i and the standard input of stage i+1 are the two ends of one pipe; no other descriptor of any command, old or new, is an end of it; the server holds neither end |
| `Ledger.UserPipesAreApart` | code/remote_working_ground_server/np_single_proc.c:541-561 | A recorded user pipe joins two logged-in clients; its descriptor is open and differs from every other user pipe, every socket and every live numbered pipe |
| `Ledger.WritersAreResolved` | code/remote_working_ground_server/np_single_proc.c:587-591 | A command that can write a numbered pipe resolved its `\|n` or `!n` to it, or is another client's |
| `Ledger.LineReady` | code/remote_working_ground_server/np_single_proc.c:726-744 | From the invariant: every descriptor a line may use or close is open, and those closed at different times are different |
| `LedgerSelf.SingleKeepsBooksExactlyWhen` | code/remote_working_ground_server/np_single_proc.c:456-566 | After a single_cmd every descriptor in the client table is open on what the table takes it for, and in it once, if and only if the line is not `<me >me` with a pipe from me to me, or what the array held is harmless: what is stored is negative or an open read end that nothing has, what is closed is neither in the table nor a standard descriptor |
| `LedgerCommands.PipelineKeepsInv` | code/remote_working_ground_server/np_single_proc.c:568-708 | Every ordinary_pipe keeps the ledger's invariant, `<me >me` included |
| `LedgerSession.LoginKeepsInv` | code/remote_working_ground_server/np_single_proc.c:227-246 | A login under a free id keeps the invariant |
| `LedgerSession.CountedKeepsInv` | code/remote_working_ground_server/np_single_proc.c:292-301 | A line that starts no command keeps the invariant, closes nothing and leaves a fresh snapshot; both ends of a pipe that runs out stay open, and nothing in the client table has them any more |
| `LedgerSession.LeaverFdsExactly` | code/remote_working_ground_server/np_single_proc.c:248-272 | What a logout closes is exactly what the client table lists for the leaver: socket, ends of live slots, user pipes to and from it |
| `LedgerSession.LogoutKeepsInv` | code/remote_working_ground_server/np_single_proc.c:248-272 | A logout after the line was counted keeps the invariant |
| `LedgerSession.NothingOfLeaverRemains` | code/remote_working_ground_server/np_single_proc.c:253-269 | Once its line was counted, a logout closes exactly the open descriptors listed for the leaver and clears its row and its column of user pipes; ends of pipes that ran out unread are not listed and stay open |
| `LedgerRuns.IdsAreHintAllocator` | code/remote_working_ground_server/np_single_proc.c:227-246 | Login and logout are the take and the give of module Hint on the ids |
| `LedgerRuns.StepKeepsGood` | code/remote_working_ground_server/np_single_proc.c:23-67 | Every step of the select loop that leaves an id and slots free keeps the whole invariant |
| `LedgerRuns.RunsKeepTheBooks` | code/remote_working_ground_server/np_single_proc.c:23-67 | Every state of every run that keeps an id and slots free satisfies the invariant and has its hints on free entries |
| `LedgerRuns.PipesAreRight` | code/remote_working_ground_server/np_single_proc.c:248-272 | In every state of every such run a recorded user pipe joins two logged-in clients and its open descriptor is used for nothing else; the open ends of numbered pipes that have not lapsed are those of live slots |
| `LedgerRuns.IdsAreRight` | code/remote_working_ground_server/np_single_proc.c:23-67 | In every such run `min_id` is the least free id, `client_num` counts the clients, and `fd_id_list` and `sockfd` are mutually inverse |
| `LedgerEnds.ReadingReleases` | code/remote_working_ground_server/np_single_proc.c:666-669 | The line that reads a numbered pipe leaves no end of it with the server |
| `LedgerEnds.ReleasedForGood` | code/remote_working_ground_server/np_single_proc.c:23-67 | A pipe the server let go of never comes back: over any further run its holders only become fewer |
| `LedgerEnds.ReaderReads` | code/remote_working_ground_server/np_single_proc.c:606-609 | The first command of the reading line has the pipe's read end as its standard input |
| `LedgerEnds.ReaderSeesEnd` | code/remote_working_ground_server/np_single_proc.c:568-744 | In every later state the commands that can write the pipe were started before the reading line and resolved to it, or are other clients': the reader sees end-of-file when they have ended |
| `LedgerWriters.WritersExactly` | code/remote_working_ground_server/np_single_proc.c:568-744 | After line k of client c read a numbered pipe, a command can write it if and only if it has not ended and is c's and its `\|n` or `!n` resolved to the pipe, or is another client's and was started while the pipe waited in its slot; all of them were started before line k, and the server holds no end |
| `LedgerWriters.SoleClientSeesEnd` | code/remote_working_ground_server/np_single_proc.c:568-744 | When only one client types, a command can write the pipe that a line read if and only if its `\|n` or `!n` resolved to it and it has not ended |
| `LedgerWriters.UserPipeWriters` | code/remote_working_ground_server/np_single_proc.c:677-692 | After a line stored a user pipe the server never has its write end, and a command can write it if and only if it is the last command of that line, was started and has not ended |
| `LedgerEnds.OthersInherit` | code/remote_working_ground_server/np_single_proc.c:476-479 | Every command started by one client inherits both ends of every live numbered pipe of every other client |
| `HeldBack.HeldBackSession` | code/remote_working_ground_server/np_single_proc.c:476-479 | The server run on two logins, `ls \|1` of client 1, a command of client 2 and `cat` of client 1: `cat` reads pipe 0, the server has no end of it, and exactly `ls` and the command of client 2 can write it; once `ls` has ended, that command alone |
| `LedgerLeaks.UnlistedStays` | code/remote_working_ground_server/np_single_proc.c:23-67 | A descriptor that nothing in the client table has stays open, on the same end, and is never listed again |
| `LedgerLeaks.StraysExactlyWhen` | code/remote_working_ground_server/np_single_proc.c:677-692 | A line of commands opens a descriptor that is no socket, no end of a live slot and no recorded user pipe afterwards, if and only if it is a pipeline with `> file` and also `\|n`, `!n` or a new user pipe |
| `LedgerLeaks.StrandsExactlyWhen` | code/remote_working_ground_server/np_single_proc.c:292-301 | A step of the select loop leaves such a descriptor behind if and only if it is such a pipeline, or a numbered pipe runs out on a line that starts no external command |
| `LedgerLeaks.StrandedExactly` | code/remote_working_ground_server/np_single_proc.c:23-67 | In every state of every roomy run a descriptor other than the standard ones and the listening socket is open and unlisted if and only if some earlier line was one of these two kinds |
| `LedgerLeaks.RunOutStaysExactlyWhen` | code/remote_working_ground_server/np_single_proc.c:308-325 | A line leaves an end of the numbered pipe that runs out on it open with the server if and only if it starts no external command |
| `LedgerLeaks.NumberedEndsExactly` | code/remote_working_ground_server/np_single_proc.c:286-335 | For every numbered pipe ever made, in every later state: an end of it is open if and only if it waits in a live slot of its client or its deadline fell on an earlier line without an external command; in the first case the open ends are the slot's, in the second both stay open and unlisted |
| `LedgerLeaks.NextLineDecides` | code/remote_working_ground_server/np_single_proc.c:308-325 | A pipe made with `\|1` or `!1` runs out on the client's next line, and lapses if that starts no external command |
| `LedgerDeadlines.NumberedWrites` | code/remote_working_ground_server/np_single_proc.c:464-470 | The last command of a line with `\|n` has on its standard output, and with `!n` on its standard error too, the write end of the pipe that the table after the line has under the line n later; the server has both ends of it |
| `LedgerDeadlines.RunWaits` | code/remote_working_ground_server/np_single_proc.c:286-335 | Over runs such a pipe goes on waiting under its line, whatever other clients do, until that line comes or its client leaves |
| `LedgerDeadlines.WriterMeetsReader` | code/remote_working_ground_server/np_single_proc.c:568-744 | Over runs: what the last command of line L writes to with `\|n` or `!n`, the first command of the client's line L + n reads, if that starts one and the client has not left |
| `LedgerStreams.FirstReads` | code/remote_working_ground_server/np_single_proc.c:478-501 | The first command of a line reads the numbered pipe that is due; else, without `<id`, the client's socket; with it, the pipe from that user, or /dev/null when there is none |
| `LedgerStreams.LastWrites` | code/remote_working_ground_server/np_single_proc.c:502-533 | The last command of a line without `\|n` and `!n` writes to the file of `> file`; else, without `>id`, to the client's socket; with it, to a new pipe, or to /dev/null when that user is not there or has a pipe from the client already; its errors go to the socket |
| `LedgerStreams.StageErrors` | code/remote_working_ground_server/np_single_proc.c:601-664 | The other commands of a pipeline send their errors to the client's socket |
| `LedgerStreams.StartsExactly` | code/remote_working_ground_server/np_single_proc.c:471-482 | A line starts exactly its commands, for its client: all of a pipeline, and the one of single_cmd unless its file cannot be opened, which is not looked at when there is `\|n` or `!n` |
| `LedgerLeaks.LeaverLeavesExactly` | code/remote_working_ground_server/np_single_proc.c:248-272 | When `exit` is typed, exactly the descriptors listed for the leaver are closed, except the two ends of a pipe that runs out on that line; nothing open is listed for it afterwards |
| `LedgerHangUp.HangUpLeavesExactly` | code/remote_working_ground_server/np_single_proc.c:248-258 | In every state of every roomy run: a client that hangs up has everything closed that the client table lists for it, except both ends of the numbered pipe that its last line made, if that made one; these stay open and unlisted |
| `NpSingle.LapsingSession` | code/remote_working_ground_server/np_single_proc.c:292-301 | The server run on a login, `ls \|1` and a built-in line ends with both ends of pipe 0 open and listed nowhere |
| `NpSingle.HangUpSession` | code/remote_working_ground_server/np_single_proc.c:286-291 | The server run on a login, `ls \|1` and byte 4 ends with nobody logged in and both ends of pipe 0 open and listed nowhere |
| `NpSingle.Server.constructor` | code/remote_working_ground_server/np_single_proc.c:214-225 | The server starts in the first state of a run |
| `NpSingle.Server.Rescan` | code/remote_working_ground_server/np_single_proc.c:240-245 | The scan finds the lowest free id and leaves the hint alone when there is none |
| `NpSingle.Server.Login` | code/remote_working_ground_server/np_single_proc.c:26-40 | A connection is a login step of the run |
| `NpSingle.Server.Count` | code/remote_working_ground_server/np_single_proc.c:292-301 | A line that starts no command is a counting step, and keeps the invariant even in a full server |
| `NpSingle.Server.DropUserPipes` | code/remote_working_ground_server/np_single_proc.c:259-271 | The loop over ids closes and clears exactly the user pipes to and from the leaver |
| `NpSingle.Server.Drop` | code/remote_working_ground_server/np_single_proc.c:49-61 | Logging out changes the whole state as the logout step says, and keeps the invariant when the snapshot is fresh |
| `NpSingle.Server.Exit` | code/remote_working_ground_server/np_single_proc.c:293-297 | `exit` counts the line first, so its snapshot is fresh when everything is closed |
| `NpSingle.Server.RunSingleLine` | code/remote_working_ground_server/np_single_proc.c:421-423 | A line for single_cmd is a single-command step, or `<me >me` with a pipe from me to me, after which the invariant holds if a negative number was stored and what was closed was harmless |
| `NpSingle.Server.RunPipelineLine` | code/remote_working_ground_server/np_single_proc.c:425-432 | A line for ordinary_pipe is a pipeline step, or a counting step when its file cannot be opened |
| `NpSingle.Server.Serve` | code/remote_working_ground_server/np_single_proc.c:42-66 | A ready descriptor serves the client whose connection it is. After `exit` or a hang-up that client has left, with its connection closed and its id given back, and nobody else; after a built-in line or a message the same clients are there, with the same descriptors and commands; after a line of commands nobody has left, exactly the line's commands were started, and they read and write what the line says |
| `NpSingle.FreedExactly` | code/remote_working_ground_server/np_single_proc.c:434-438 | The snapshot that a hang-up would go by is freed memory exactly after a line that string_split handled while a pipe of the client waits for a later line |
| `UserPipeMessages.SaysMeans` | code/remote_working_ground_server/np_single_proc.c:777-804 | "Received" is announced iff there is a pipe to the client from that user, and "piped" iff the receiver is logged in and has no pipe from the client yet |
| `UserPipeMessages.Announce` | code/remote_working_ground_server/np_single_proc.c:777-804 | Answers `<id` first and then `>id`, each with one message, by whether that user is logged in and whether there is a pipe |
| `UserPipeMessages.SingleSaysWhatItDoes` | code/remote_working_ground_server/np_single_proc.c:456-566 | For a single command other than `<me >me` with a pipe from me to me: "received" is said iff a pipe was consumed, unless a numbered pipe ran out on the line; "piped" iff a pipe was stored, unless the line has `\|n` or `!n`; both exceptions are exact |
| `UserPipeMessages.PipelineSaysWhatItDoes` | code/remote_working_ground_server/np_single_proc.c:568-708 | The same for pipelines, where `> file` is an exception too |
| `UserPipeMessages.SelfPipeDisagrees` | code/remote_working_ground_server/np_single_proc.c:545-560 | `<me >me` with a pipe from me to me, as a single command: the message says the pipe is already there, none is made, and what the array held is stored |
| `UserPipeMessages.PipelineSelfPipeDisagrees` | code/remote_working_ground_server/np_single_proc.c:677-692 | The same line as a pipeline: the message says the same, but a new pipe is made, and stored unless there is a `> file` |
| `UserPipeMessages.CommandAgrees` | code/remote_working_ground_server/np_single_proc.c:483-532 | Unless the line is `<me >me` with a pipe from me to me, the command reads a user pipe of its client iff the line consumes one, and writes to the line's new pipe iff that is a numbered pipe or a user pipe that is stored while there is no `> file` |
| `Decimal.CatNumToMsg` | code/remote_working_ground_server/np_single_proc.c:963-984 | Appends the decimal notation, which has the number's value and no leading zero |
| `Decimal.PrintedIsRead` | code/remote_working_ground_server/np_single_proc.c:963-1009 | `atoi` reads every number back from its notation, and every canonical notation is printed back |
| `Decimal.AtoiReads` | code/remote_working_ground_server/np_single_proc.c:378-404 | White space, at most one sign, digits, and then anything that does not go on with them, are read as the number with its sign; without digits as 0 |
| `CommandLine.Strtok.Next` | code/remote_working_ground_server/np_single_proc.c:364-405 | Each call gives the next word between runs of spaces and keeps its place |
| `CommandLine.StringSplit` | code/remote_working_ground_server/np_single_proc.c:358-407 | The reading loop computes the word-by-word parse of all words of the line |
| `CommandLine.PipeModeHasTwoStages` | code/remote_working_ground_server/np_single_proc.c:408-432 | Whatever the line, ordinary_pipe is given at least two stages, and a `> file` has a stage to take its name from |
| `CommandLine.FileFollowsLastSeparator` | code/remote_working_ground_server/np_single_proc.c:366-379 | The file of a pipeline is the first word after the last separator of the line, whichever separator that is |
| `CommandLine.FileMixup` | code/remote_working_ground_server/np_single_proc.c:425-432 | In `ls > f \| cat` the commands are `ls` and `f` and the file is `cat` |
| `PrintedCommand.NumberAnywhere` | code/remote_working_ground_server/np_single_proc.c:378-404 | A `<n`, `\|n`, `!n` or `>n` may be written at any place among the words, in any stage, as long as none of the same kind follows: it adds that number to the command and changes nothing else |
| `PrintedCommand.WrittenIsUnderstood` | code/remote_working_ground_server/np_single_proc.c:358-407 | For all stages of ordinary words, with or without `> file`, with `<n`, `\|n`, `!n` and `>n` at any places, and for every spacing, parsing the written command gives it back |
| `PrintedCommand.WrittenIsRun` | code/remote_working_ground_server/np_single_proc.c:408-432 | The written command is run as the pipeline, single command or built-in that was meant |
| `PrintedCommand.WrittenIsWired` | code/remote_working_ground_server/np_single_proc.c:420-432 | The wiring is given as many stages, the same numbers and the same user ids as the written command has, and a redirection if and only if it has a file |
| `PrintedCommand.CheckCmd` | code/remote_working_ground_server/np_single_proc.c:337-356 | The line is a message if and only if its first word is `tell` or `yell`: the `strstr` test in front changes nothing |
| `PrintedCommand.PipeModeIsWired` | code/remote_working_ground_server/np_single_proc.c:424-432 | The wiring's demand of two stages is met by every line in pipe mode and by no other |
| `RunShell.ExitExactly` | code/remote_working_ground_server/np_single_proc.c:286-297 | A client logs out by typing exactly `exit`: nothing, not even a space, in front of it, and a line break or nothing after it |
| `RunShell.WrittenIsInput` | code/remote_working_ground_server/np_single_proc.c:286-306 | For every command in any spelling and spacing, with either end of line: it is taken for `exit`, a message, a built-in command or a line to be run, and in the last case the wiring gets the command's own stages, numbers, ids and redirection |
| `RunShell.Run` | code/remote_working_ground_server/np_single_proc.c:286-306 | From the bytes to the processes: whatever command a client writes, exactly the commands of that line are started for it, and the first and the last read and write what it says; `exit` makes it leave |
| `Environment.EnvTable.SetEnv` | code/remote_working_ground_server/np_single_proc.c:105-129 | Sets the client's value, adding the variable if it is new, and the process environment if allowed; variables stay listed once with the right number of users |
| `Environment.EnvTable.Switch` | code/remote_working_ground_server/np_single_proc.c:44-48 | Loads every listed variable of the client to be served, unless it is loaded already |
| `Environment.EnvTable.DeleteEnvVar` | code/remote_working_ground_server/np_single_proc.c:166-184 | Drops the leaver's values and exactly the variables that nobody else has: the filter that is meant |
| `EnvironmentList.VarList.DeleteEnvVar` | code/remote_working_ground_server/np_single_proc.c:166-184 | The loop on linked nodes, pointer by pointer: it clears the leaver's values, frees every node whose variable loses its last user, and unlinks the first of them only |
| `EnvironmentList.AsMeantExactlyWhen` | code/remote_working_ground_server/np_single_proc.c:166-184 | The list after the loop is what the filter leaves if and only if at most one variable loses its last user |
| `EnvironmentList.DanglingExactlyWhen` | code/remote_working_ground_server/np_single_proc.c:175-182 | After the loop a freed node is still in the list if and only if two or more variables lose their last user |
| `EnvironmentList.TwoOwnVariables` | code/remote_working_ground_server/np_single_proc.c:125-129 | A run, for every number of clients, in which one client sets two variables of its own, so that its leaving makes this happen |
| `Environment.LazyIsEager` | code/remote_working_ground_server/np_single_proc.c:42-48 | In every run each command sees for every listed variable its own client's value or nothing, as it would with a switch before every line, unless its client was given the id of the client served last, who has left |
| `Environment.TableIsHistory` | code/remote_working_ground_server/np_single_proc.c:105-129 | In every run the table has for every client, of every variable, what that client set it to last since its login, PATH as it is at login until then, and nothing for a client that has left |
| `Environment.SeesLastSet` | code/remote_working_ground_server/np_single_proc.c:42-48 | In every run, outside that exception, a command of a client sees each variable as that client set it last, and every other listed variable empty |
| `Environment.ReissuedIdSeesOwnExactlyWhen` | code/remote_working_ground_server/np_single_proc.c:35-48 | In every run that ends in that case, with any logins in between: the new owner of the id sees its own value of a listed variable if and only if it set the variable itself or the leaver saw what a newcomer sees |
| `Environment.DroppedExactly` | code/remote_working_ground_server/np_single_proc.c:166-184 | A variable is dropped from the list iff nobody but the leaver had a value and it is not PATH |
| `Environment.LeaversValueStays` | code/remote_working_ground_server/np_single_proc.c:175-179 | After that, in every continuation of the run in which nobody sets the variable, every client is served with the value the leaver saw |
| `Html.Text.ChangeToHtmlFormat` | code/remote_batch_system/console.cpp:98-106 | The in-place loop ends and has replaced every target and nothing else |
| `Html.RoundEndsExactlyWhen` | code/remote_batch_system/console.cpp:102-105 | A round lowers the number of targets iff the replacement does not contain the target; otherwise a target is left, so the loop never ends |
| `Html.Text.Escaped` | code/remote_batch_system/console.cpp:83-88 | The four passes leave one simultaneous escape of the data, without any of the four raw characters |
| `Html.PassesAreEscape` | code/remote_batch_system/console.cpp:85-88 | The four passes one after the other equal one simultaneous substitution |
| `Html.EscapingKeepsMeaning` | code/remote_batch_system/console.cpp:83-90 | For every text and every table of references, named or numbered, with or without a semicolon, that has the four used here: reading the escaped text, always by the longest entry, gives what reading the text itself gives |
| `Html.EscapingIsUndoneExactlyWhen` | code/remote_batch_system/console.cpp:83-90 | Reading undoes escaping iff the text contains no reference of its own, for instance whenever it contains no `&` |

## Left out

- Socket set-up, `select` and `accept` failures, `setsockopt`, shared memory, Ctrl-C clean-up and removal of the FIFO directory: no invariant to prove.
- Texts of banners, `who`, names and error lines: messages are abstract values in the protocol.
- The sender's own copy of a yell or a greeting, which `broadcast` writes to the sender's socket directly: `screen` is what handlers write.
- Executed programs and a failing `execvp`: a command is its descriptors until it ends.
- Fixed buffer sizes, allocation failure, missing `return` statements, ids below 0 and overflow in `atoi`: lines and ids are well formed, numbers fit.
- Failure to open `/dev/null`, which would end the command before it runs.
- A `kill` that loses a race with the receiver's exit, a signal that arrives before a process has come to its `kill` and is handled only after it, and interrupted system calls other than `sem_wait`: ruled out by the assumptions on the protocol, as named above.
- The FIFO part of the multi-process server's own `single_cmd` and `ordinary_pipe`: the protocol models their requests and rendezvous; their wiring of ordinary and numbered pipes is that of the single-process server.
- A client that hangs up after a line that freed its snapshot: the code then reads and frees that memory again, which C leaves undefined. Hanging up is no step of the runs in `LedgerRuns`; what it leaves behind is stated for every state of them.
- `RunShell.Run`: demands a line with a word in it, since `string_split` compares a null pointer otherwise, and user ids that are not negative; a line longer than one `read` gives is not put together.
- Waiting for commands: which lines make the server wait for their commands, and the commands' exit codes.
- The variable `pos` of `single_cmd`, which the code leaves unset when there is no numbered pipe: taken as -1, as `ordinary_pipe` sets it.
- `LedgerRuns.StepKeepsGood`: the runs do not contain `<me >me` on its own with a pipe from me to me; `LedgerSelf.SingleKeepsBooksExactlyWhen` says when the client table is still true after it.
- `LedgerRuns.RunsKeepTheBooks`: assumes that an id and slots stay free, since the code misbehaves otherwise; `Hint.StaleExactlyWhen` and `LedgerFull.NextIdTakenExactlyWhen` are the exact conditions.
- `NpSingle.Server.Serve`: demands that the snapshot of a client that hangs up is not freed memory, as named above; the class keeps each client's table as the value that the array class `SlotTable.CrossPipe` is proved to compute, and not as an object of that class.
- `Environment.EnvTable.DeleteEnvVar`: the runs of `Environment` go on with the filter that is meant, which is the code's loop as long as no client leaves as the last user of two variables (`EnvironmentList.AsMeantExactlyWhen`); in `EnvironmentList` a freed node keeps its contents.
- `print_command` of the console, which writes the command without escaping it, the Boost.Asio callbacks, the HTTP server, the CGI programs and the SOCKS proxy, which is not part of this model.
