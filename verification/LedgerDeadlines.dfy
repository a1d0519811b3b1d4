/**
  Numbered pipes over whole runs of the single-process server: what the last command of line L
  writes to with `|n` or `!n`, the first command of the client's line L + n reads.
  */
module LedgerDeadlines {
  import opened Kernel
  import opened Ledger
  import opened LedgerEnds
  import opened LedgerLine
  import opened LedgerRuns
  import opened LedgerSession
  import opened LedgerStreams
  import opened Pipeline
  import opened SlotTable
  import opened Wiring

  /** After line `now` of client c, pipe p waits for its line d, and the server has both ends of it. */
  ghost predicate Waits(s: Server, c: nat, now: int, d: int, p: nat) {
    && Formed(s) && Client(s, c) && d in View(s.tables[c], now)
    && HasEnd(s.fds, View(s.tables[c], now)[d].readFd, ReadEnd(p))
    && HasEnd(s.fds, View(s.tables[c], now)[d].writeFd, WriteEnd(p))
  }

  // ---- The line with |n or !n ----

  /** What the server does not give to the first command it keeps. */
  lemma LineKeepsFd(s: Server, e: Event, s': Server, f: int)
    requires Good(s) && Step(s, e, s') && IsLine(e) && f in s.fds
    requires LineFormed(e.x) && f !in InputFds(e.x.t, e.x.u, e.x.line)
    ensures f in s'.fds && s'.fds[f] == s.fds[f]
  {
    LineEffect(s, e, s');
    hide Good, Step, GainedEnds, Gained, InputFds, LineKinds;
  }

  /** The table after the line. */
  lemma LineTable(s: Server, e: Event, s': Server, c: nat)
    requires Good(s) && Step(s, e, s') && IsLine(e) && e.x.u.me == c
    ensures Formed(s) && Client(s, c) && Ok(s.tables[c]) && TypedAt(s, e.x) && e.x.t == Counted(s, c)
    ensures Formed(s') && Client(s', c) && s'.tables[c] == e.x.t' == TableAfterLine(e.x)
    ensures s'.fds == e.x.fds && s.fds == e.x.entry && (e.RunPipeline? ==> e.x.line.stages >= 1)
    ensures GainedEnds(e.x, e.RunPipeline?)
  {
    LineEffect(s, e, s');
    GoodIsInv(s);
    AfterIsFormed(s, e.x, e.RunPipeline?);
    TypistIsClient(s, e, s', c);
    assert Ok(s.tables[c]);
    hide Good, Step, Inv, FdsAfter, GainedEnds, LineKinds, Gained, Counted, TableAfterLine;
  }

  /** A live slot that does not run out on the line keeps its pipe. */
  lemma SlotStays(s: Server, e: Event, s': Server, c: nat, i: nat, f: int)
    requires Good(s) && Step(s, e, s') && IsLine(e) && Client(s, c) && Formed(s)
    requires i < |s.tables[c].list| && Live(s.tables[c], i)
    requires f == s.tables[c].list[i].writeFd || f == s.tables[c].list[i].readFd
    requires Client(s, e.x.u.me) && !(e.x.u.me == c && Counted(s, c).outputPoint == i)
    ensures f in s.fds && f in s'.fds && s'.fds[f] == s.fds[f]
  {
    LineTable(s, e, s', e.x.u.me);
    GoodIsInv(s);
    assert SlotOwned(s, c, i);
    SlotNotInput(s, e.x, c, i, f);
    hide Good, Step, Inv, Counted, InputFds, SlotOwned;
    LineKeepsFd(s, e, s', f);
  }

  lemma SlotNotInput(s: Server, x: Turn, c: nat, i: nat, f: int)
    requires Inv(s) && TypedAt(s, x) && Client(s, c) && i < |s.tables[c].list| && Live(s.tables[c], i)
    requires f == s.tables[c].list[i].writeFd || f == s.tables[c].list[i].readFd
    requires !(x.u.me == c && Counted(s, c).outputPoint == i)
    ensures f in s.fds && f !in InputFds(x.t, x.u, x.line)
  {
    assert SlotOwned(s, c, i);
    if f in InputFds(x.t, x.u, x.line) { InputOwned(s, x.u.me, x.line, f); }
    hide Inv, Counted, InputFds;
  }

  /** A live slot has the two ends of one pipe. */
  lemma SlotPipes(s: Server, c: nat, i: nat) returns (p: nat)
    requires Inv(s) && Client(s, c) && i < |s.tables[c].list| && Live(s.tables[c], i)
    ensures HasEnd(s.fds, s.tables[c].list[i].writeFd, WriteEnd(p))
            && HasEnd(s.fds, s.tables[c].list[i].readFd, ReadEnd(p))
  {
    assert SlotOwned(s, c, i) && RoleOk(s, s.tables[c].list[i].writeFd) && RoleOk(s, s.tables[c].list[i].readFd);
    p := s.fds[s.tables[c].list[i].writeFd].pipe;
    hide Inv;
  }

  /** The slot that a line's number matches waits for the same line as the line's output will be read on. */
  lemma FoundSlot(s: Server, x: Turn, c: nat, now: int, k: nat)
    requires Inv(s) && Client(s, c) && x.t == Counted(s, c) && x.line.crossNum != 0
    requires RecordInRange(x.t) && Find(x.t, x.line.crossNum) == Options.Some(k)
    ensures k < |x.t.list| == |s.tables[c].list| && Live(x.t, k) && Live(s.tables[c], k) && x.t.outputPoint != k
    ensures PipeAt(x.t, k) == PipeAt(s.tables[c], k)
    ensures var d := now + Abs(x.line.crossNum); d in View(x.t, now) && View(x.t, now)[d] == PipeAt(x.t, k)
  {
    assert Ok(s.tables[c]);
    CountDownOk(s.tables[c]);
    FindRefines(x.t, now, x.line.crossNum);
    assert x.t.list[k].count == Abs(x.line.crossNum);
    SlotBefore(s, c, k);
    if x.t.outputPoint >= 0 { OutputPointIsNotLive(s.tables[c]); }
    hide Inv, FindFrom, ViewTo, CountDown, Ok, Snapshot;
  }

  /** The slot of a waiting pipe that the line's number matches. */
  lemma MatchWaits(s: Server, e: Event, s': Server, c: nat, now: int, k: nat) returns (p: nat)
    requires Good(s) && Good(s') && Step(s, e, s') && IsLine(e) && e.x.u.me == c && e.x.line.crossNum != 0
    requires RecordInRange(e.x.t) && Find(e.x.t, e.x.line.crossNum) == Options.Some(k)
    ensures Waits(s', c, now + 1, now + 1 + Abs(e.x.line.crossNum), p)
    ensures k < |e.x.t.list| && HasEnd(e.x.entry, e.x.t.list[k].writeFd, WriteEnd(p))
  {
    hide Good, Step, Inv, Counted, GainedEnds, Ok, View, Find, TableAfterLine, TypedAt;
    var x := e.x;
    LineTable(s, e, s', c);
    GoodIsInv(s);
    GoodIsInv(s');
    TypedIs(s, x);
    MatchTable(x);
    FoundSlot(s, x, c, now + 1, k);
    p := SlotPipes(s', c, k);
    SlotStays(s, e, s', c, k, x.t.list[k].writeFd);
  }

  lemma MatchTable(x: Turn)
    requires RecordInRange(x.t) && x.t.minInput < |x.t.list| && x.line.crossNum != 0 && Find(x.t, x.line.crossNum).Some?
    ensures TableAfterLine(x) == x.t
  {
  }

  lemma TypedIs(s: Server, x: Turn)
    requires TypedAt(s, x)
    ensures LineFormed(x) && x.entry == s.fds
  {
  }

  lemma NewInView(s: Server, x: Turn, c: nat, now: int)
    requires Formed(s) && Client(s, c) && Ok(s.tables[c]) && TypedAt(s, x) && x.t == Counted(s, c)
    requires x.line.crossNum != 0 && RecordInRange(x.t) && Find(x.t, x.line.crossNum).None?
    ensures AddsNumbered(x)
    ensures var v := View(TableAfterLine(x), now);
            now + Abs(x.line.crossNum) in v && v[now + Abs(x.line.crossNum)] == Pipe(x.fd1, x.fd0)
  {
    CountDownOk(s.tables[c]);
    FindRefines(x.t, now, x.line.crossNum);
    hide CountDown, Ok, Snapshot, Update, View, Find, LineFormed;
    UpdateRefines(x.t, now, Pipe(x.fd1, x.fd0), x.line.crossNum);
  }

  /** The line makes a new pipe. */
  lemma NewWaits(s: Server, e: Event, s': Server, c: nat, now: int)
    requires Good(s) && Good(s') && Step(s, e, s') && IsLine(e) && e.x.u.me == c && e.x.line.crossNum != 0
    requires RecordInRange(e.x.t) && Find(e.x.t, e.x.line.crossNum).None?
    ensures e.RunPipeline? ==> e.x.line.stages >= 1
    ensures Waits(s', c, now + 1, now + 1 + Abs(e.x.line.crossNum), LastPipe(e.x, e.RunPipeline?))
  {
    hide Good, Step, Counted, Ok, View, TypedAt, Find, TableAfterLine;
    LineTable(s, e, s', c);
    NewInView(s, e.x, c, now + 1);
    TypedIs(s, e.x);
  }

  lemma NumberedSink(fds: Fds, t: Table, u: Users, line: Line, p: nat)
    requires UsersFormed(u) && RecordInRange(t) && u.sock in fds && line.crossNum != 0
    requires Resolved(t, line) >= 0 ==> t.list[Resolved(t, line)].writeFd in fds
    ensures Find(t, line.crossNum).Some? ==>
              t.list[Find(t, line.crossNum).value].writeFd in fds
              && SinkEnd(fds, t, u, line, p) == fds[t.list[Find(t, line.crossNum).value].writeFd]
    ensures Find(t, line.crossNum).None? ==> SinkEnd(fds, t, u, line, p) == WriteEnd(p)
  {
  }

  lemma BeforeEndKeeps(x: Turn, f: int)
    requires LineFormed(x) && f in x.entry && f in BeforeEnd(x) && (x.line.redir ==> x.fdRedir !in x.entry)
    ensures BeforeEnd(x)[f] == x.entry[f]
  {
  }

  lemma RedirIsNew(s: Server, e: Event, s': Server)
    requires Step(s, e, s') && e.RunPipeline? && e.x.line.redir
    ensures e.x.fdRedir !in e.x.entry
  {
    hide StartsAt, ServerAfter, Stages, LastChild, ServerKeeps, AfterOutput, AfterInput, BeforeLast;
  }

  /** What the last command of a line with `|n` or `!n` writes to is what waits for line now + 1 + n. */
  lemma NumberedWrites(s: Server, e: Event, s': Server, c: nat, now: int) returns (p: nat)
    requires Types(s, e, s', c) && Good(s') && e.x.line.crossNum != 0
    ensures Waits(s', c, now + 1, now + 1 + Abs(e.x.line.crossNum), p)
    ensures var last := s'.children[|s'.children| - 1];
            && last.client == c && HasEnd(last.fds, STDOUT, WriteEnd(p))
            && HasEnd(last.fds, STDERR, if e.x.line.crossNum < 0 then WriteEnd(p) else Socket(c))
  {
    hide Good, Step, Inv, SinkEnd, Find, Ready, Waits, Resolved, BeforeEnd;
    var x := e.x;
    GoodIsInv(s);
    TypistIsClient(s, e, s', c);
    SocketIs(s, c);
    TypedIs(s, x);
    if e.RunPipeline? {
      PipelineLast(s, e, s', c);
      NumberedSink(BeforeEnd(x), x.t, AfterInput(x.t, x.u, x.line), x.line, LastPipe(x, true));
      if x.line.redir { RedirIsNew(s, e, s'); }
    } else {
      SingleLast(s, e, s', c);
      NumberedSink(x.entry, x.t, x.u, x.line, x.p0);
    }
    if Find(x.t, x.line.crossNum).Some? {
      var k := Find(x.t, x.line.crossNum).value;
      p := MatchWaits(s, e, s', c, now, k);
      if e.RunPipeline? { BeforeEndKeeps(x, x.t.list[k].writeFd); }
    } else {
      p := LastPipe(x, e.RunPipeline?);
      NewWaits(s, e, s', c, now);
    }
  }

  // ---- Until its line comes ----

  /** The slot of a pipe that waits. */
  lemma WaitingSlot(s: Server, c: nat, now: int, d: int, p: nat) returns (i: nat)
    requires Inv(s) && Waits(s, c, now, d, p)
    ensures Formed(s) && Client(s, c)
    ensures i < |s.tables[c].list| && Live(s.tables[c], i) && s.tables[c].list[i].count == d - now
    ensures HasEnd(s.fds, s.tables[c].list[i].readFd, ReadEnd(p))
            && HasEnd(s.fds, s.tables[c].list[i].writeFd, WriteEnd(p))
  {
    assert Ok(s.tables[c]);
    hide Inv;
    i := SlotBehind(s.tables[c].list, now, |s.tables[c].list|, d);
    hide ViewTo, Ok;
  }

  /** A slot that has the ends of a pipe under its line. */
  lemma SlotWaits(s: Server, c: nat, now: int, i: nat, p: nat)
    requires Formed(s) && Client(s, c) && Ok(s.tables[c])
    requires i < |s.tables[c].list| && Live(s.tables[c], i)
    requires HasEnd(s.fds, s.tables[c].list[i].readFd, ReadEnd(p))
             && HasEnd(s.fds, s.tables[c].list[i].writeFd, WriteEnd(p))
    ensures Waits(s, c, now, now + s.tables[c].list[i].count, p)
  {
    LiveInView(s.tables[c].list, now, |s.tables[c].list|, i);
    hide ViewTo, Ok;
  }

  /** A line of the client itself: slots with a later deadline count down and are kept. */
  lemma OwnSlotStays(s: Server, x: Turn, c: nat, i: nat)
    requires Inv(s) && TypedAt(s, x) && x.u.me == c && i < |s.tables[c].list| && s.tables[c].list[i].count > 1
    ensures Counted(s, c).outputPoint != i
    ensures var t' := TableAfterLine(x);
            && i < |t'.list| && t'.list[i].count == s.tables[c].list[i].count - 1
            && PipeAt(t', i) == PipeAt(s.tables[c], i)
  {
    var t := s.tables[c];
    assert Ok(t);
    assert CountDown(t).list[i] == Ticked(t.list[i]);
    ExpiredInRange(t.list, |t.list|);
    assert Live(x.t, i) && i != x.t.minInput;
    hide Inv, Ok, Resolved, LineFormed;
  }

  lemma OwnLineWaits(s: Server, e: Event, s': Server, c: nat, now: int, d: int, p: nat)
    requires Good(s) && Good(s') && Step(s, e, s') && IsLine(e) && e.x.u.me == c && Waits(s, c, now, d, p)
             && d > now + 1
    ensures Waits(s', c, now + 1, d, p)
  {
    hide Good, Step, Inv, Counted, Ok, View, TypedAt, TableAfterLine, Waits;
    GoodIsInv(s);
    GoodIsInv(s');
    LineTable(s, e, s', c);
    var i := WaitingSlot(s, c, now, d, p);
    OwnSlotStays(s, e.x, c, i);
    SlotStays(s, e, s', c, i, s.tables[c].list[i].writeFd);
    SlotStays(s, e, s', c, i, s.tables[c].list[i].readFd);
    TableOk(s', c);
    SlotWaits(s', c, now + 1, i, p);
  }

  lemma TableOk(s: Server, c: nat)
    requires Inv(s) && Client(s, c)
    ensures Ok(s.tables[c])
  {
  }

  /** A line of another client. */
  lemma OtherLineWaits(s: Server, e: Event, s': Server, c: nat, now: int, d: int, p: nat)
    requires Good(s) && Good(s') && Step(s, e, s') && IsLine(e) && e.x.u.me != c && Waits(s, c, now, d, p)
    ensures Waits(s', c, now, d, p)
  {
    hide Good, Step, Inv, Counted, Ok, View, TypedAt, TableAfterLine, Waits;
    GoodIsInv(s);
    GoodIsInv(s');
    LineTable(s, e, s', e.x.u.me);
    var i := WaitingSlot(s, c, now, d, p);
    OtherTable(s, e, s', c);
    SlotStays(s, e, s', c, i, s.tables[c].list[i].writeFd);
    SlotStays(s, e, s', c, i, s.tables[c].list[i].readFd);
    TableOk(s', c);
    SlotWaits(s', c, now, i, p);
  }

  lemma OtherTable(s: Server, e: Event, s': Server, c: nat)
    requires Good(s) && Step(s, e, s') && IsLine(e) && Formed(s) && Client(s, c) && e.x.u.me != c
    ensures Formed(s') && Client(s', c) && s'.tables[c] == s.tables[c]
  {
    LineTable(s, e, s', e.x.u.me);
    LineEffect(s, e, s');
    hide Good, FdsAfter, GainedEnds, LineKinds, Gained, InputFds, Counted, TypedAt;
  }

  /** A counted line of the client that starts no command. */
  lemma CountingWaits(s: Server, c: nat, now: int, d: int, p: nat)
    requires Good(s) && Waits(s, c, now, d, p) && d > now + 1 && Good(CountedServer(s, c))
    ensures Waits(CountedServer(s, c), c, now + 1, d, p)
  {
    assert Formed(s) && Client(s, c);
    hide Good, Inv, Ok, View, Waits;
    GoodIsInv(s);
    GoodIsInv(CountedServer(s, c));
    var i := WaitingSlot(s, c, now, d, p);
    CountingSlot(s, c, i);
    TableOk(CountedServer(s, c), c);
    hide CountedServer;
    SlotWaits(CountedServer(s, c), c, now + 1, i, p);
  }

  lemma CountingSlot(s: Server, c: nat, i: nat)
    requires Inv(s) && Client(s, c) && i < |s.tables[c].list| && s.tables[c].list[i].count > 1
    ensures var s' := CountedServer(s, c);
            && Formed(s') && Client(s', c) && s'.fds == s.fds && i < |s'.tables[c].list|
            && s'.tables[c].list[i].count == s.tables[c].list[i].count - 1
            && PipeAt(s'.tables[c], i) == PipeAt(s.tables[c], i)
  {
    CountedFormed(s, c);
    assert Counted(s, c).list[i] == Ticked(s.tables[c].list[i]);
    hide Inv;
  }

  /** What happens to other clients leaves it waiting. */
  lemma SameWaits(s: Server, s': Server, c: nat, now: int, d: int, p: nat)
    requires Waits(s, c, now, d, p) && Formed(s') && Client(s', c) && s'.tables[c] == s.tables[c]
    requires forall f :: f in s.fds && IsPipe(s.fds[f]) && s.fds[f].pipe == p ==> f in s'.fds && s'.fds[f] == s.fds[f]
    ensures Waits(s', c, now, d, p)
  {
    hide View;
  }

  lemma LogInWaits(s: Server, fd: int, slots: nat, c: nat, now: int, d: int, p: nat)
    requires Good(s) && Step(s, LogIn(fd, slots), LoggedIn(s, fd, slots)) && Waits(s, c, now, d, p)
    requires Formed(LoggedIn(s, fd, slots))
    ensures Waits(LoggedIn(s, fd, slots), c, now, d, p)
  {
    hide View, Inv;
    SameWaits(s, LoggedIn(s, fd, slots), c, now, d, p);
  }

  lemma LogOutWaits(s: Server, b: nat, c: nat, now: int, d: int, p: nat)
    requires Good(s) && Client(s, b) && b != c && Snapshot(s.tables[b]) && Waits(s, c, now, d, p)
    requires Formed(LoggedOut(s, b))
    ensures Waits(LoggedOut(s, b), c, now, d, p)
  {
    assert RecordInRange(s.tables[b]);
    hide View, Inv, Good, Ok, ColumnCleared, LeaverFds, Snapshot;
    GoodIsInv(s);
    var i := WaitingSlot(s, c, now, d, p);
    SlotOutlives(s, b, c, i);
    TableOk(s, c);
    hide Waits;
    SlotWaits(LoggedOut(s, b), c, now, i, p);
  }

  lemma SlotOutlives(s: Server, b: nat, c: nat, i: nat)
    requires Inv(s) && Client(s, b) && Client(s, c) && b != c && Snapshot(s.tables[b])
    requires i < |s.tables[c].list| && Live(s.tables[c], i)
    ensures forall f :: f == s.tables[c].list[i].writeFd || f == s.tables[c].list[i].readFd ==>
              f in s.fds && f in LoggedOut(s, b).fds && LoggedOut(s, b).fds[f] == s.fds[f]
  {
    assert SlotOwned(s, c, i);
    hide Inv, LeaverFds, Snapshot;
    RoleOutlives(s, b, s.tables[c].list[i].writeFd, NumWrite(c, i));
    RoleOutlives(s, b, s.tables[c].list[i].readFd, NumRead(c, i));
  }

  /** The event is a line of client c that is counted, other than its last. */
  predicate TypesLine(e: Event, c: nat) {
    e == BuiltIn(c) || (IsLine(e) && e.x.u.me == c)
  }

  /** In one step a pipe that waits goes on waiting, unless it is the client's line d or the client leaves. */
  lemma StepWaits(s: Server, e: Event, s': Server, c: nat, now: int, d: int, p: nat)
    requires Good(s) && Good(s') && Step(s, e, s') && Waits(s, c, now, d, p) && e != LogOut(c)
    ensures !TypesLine(e, c) ==> Waits(s', c, now, d, p)
    ensures TypesLine(e, c) && d > now + 1 ==> Waits(s', c, now + 1, d, p)
  {
    hide Good, Waits, Inv, SingleDone, PipelineDone, ServerAfter, StartsAt, CountedServer, LoggedOut, LoggedIn;
    GoodIsInv(s');
    if IsLine(e) {
      if e.x.u.me != c {
        OtherLineWaits(s, e, s', c, now, d, p);
      } else if d > now + 1 {
        OwnLineWaits(s, e, s', c, now, d, p);
      }
    } else if e.BuiltIn? {
      if e.client != c {
        OtherCountWaits(s, e.client, c, now, d, p);
      } else if d > now + 1 {
        CountingWaits(s, c, now, d, p);
      }
    } else if e.LogIn? {
      LogInWaits(s, e.fd, e.slots, c, now, d, p);
    } else if e.LogOut? {
      BuiltInGood(s, e.client);
      OtherCountWaits(s, e.client, c, now, d, p);
      CountedClient(s, e.client);
      LogOutWaits(CountedServer(s, e.client), e.client, c, now, d, p);
    } else {
      EndWaits(s, e.command, c, now, d, p);
    }
  }

  lemma CountedClient(s: Server, b: nat)
    requires Formed(s) && Client(s, b)
    ensures Client(CountedServer(s, b), b)
  {
  }

  lemma OtherCountWaits(s: Server, b: nat, c: nat, now: int, d: int, p: nat)
    requires Good(s) && Formed(s) && Client(s, b) && b != c && Waits(s, c, now, d, p)
    ensures Waits(CountedServer(s, b), c, now, d, p)
  {
    hide View, Good, Counted, Inv;
    GoodIsInv(s);
    CountedFormed(s, b);
    SameWaits(s, CountedServer(s, b), c, now, d, p);
  }

  lemma EndWaits(s: Server, k: nat, c: nat, now: int, d: int, p: nat)
    requires k < |s.children| && Waits(s, c, now, d, p)
    ensures Waits(AfterEnd(s, k), c, now, d, p)
  {
    hide View;
    SameWaits(s, AfterEnd(s, k), c, now, d, p);
  }

  // ---- The line that reads ----

  /** On line d the first command reads the pipe. */
  lemma DueIsRead(s: Server, e: Event, s': Server, c: nat, now: int, p: nat)
    requires Types(s, e, s', c) && Waits(s, c, now, now + 1, p)
    ensures var first := s'.children[|s.children|]; first.client == c && HasEnd(first.fds, STDIN, ReadEnd(p))
  {
    hide Waits, Inv, Good, Step;
    GoodIsInv(s);
    FirstReads(s, e, s', c);
    var i := WaitingSlot(s, c, now, now + 1, p);
  }

  // ---- Over runs ----

  /** How many lines client c has typed. */
  function LineNo(events: seq<Event>, m: nat, c: nat): nat
    requires m <= |events|
  {
    if m == 0 then 0 else LineNo(events, m - 1, c) + (if TypesLine(events[m - 1], c) then 1 else 0)
  }

  lemma {:induction false} LineNoGrows(events: seq<Event>, k: nat, m: nat, c: nat)
    requires k <= m <= |events|
    ensures LineNo(events, k, c) <= LineNo(events, m, c)
  {
    if k < m { LineNoGrows(events, k, m - 1, c); }
  }

  /** Client c does not leave from event k on, before event m. */
  predicate Remains(events: seq<Event>, k: nat, m: nat, c: nat)
    requires m <= |events|
  {
    forall i :: k <= i < m ==> events[i] != LogOut(c)
  }

  lemma NextWaits(n: nat, states: seq<Server>, events: seq<Event>, m: nat, c: nat, d: int, p: nat)
    requires RoomyRun(n, states, events) && m < |events| && m + 1 < |states| && events[m] != LogOut(c)
    requires Waits(states[m], c, LineNo(events, m, c), d, p) && LineNo(events, m + 1, c) < d
    ensures Waits(states[m + 1], c, LineNo(events, m + 1, c), d, p)
  {
    hide RoomyRun, Good, Step, Waits, Room;
    StepOfRun(n, states, events, m);
    StepWaits(states[m], events[m], states[m + 1], c, LineNo(events, m, c), d, p);
  }

  /** A pipe waits until its line comes or its client leaves, whatever other clients do. */
  lemma {:induction false} RunWaits(n: nat, states: seq<Server>, events: seq<Event>, k: nat, m: nat, c: nat, d: int,
                                    p: nat)
    requires RoomyRun(n, states, events) && k <= m < |states| == |events| + 1 && Remains(events, k, m, c)
    requires Waits(states[k], c, LineNo(events, k, c), d, p) && LineNo(events, m, c) < d
    ensures Waits(states[m], c, LineNo(events, m, c), d, p)
  {
    hide RoomyRun, Waits;
    if k < m {
      LineNoGrows(events, m - 1, m, c);
      RunWaits(n, states, events, k, m - 1, c, d, p);
      NextWaits(n, states, events, m - 1, c, d, p);
    }
  }

  /** The last command started is client c's and writes to pipe p, with `!n` its errors too. */
  ghost predicate LastWritesTo(s': Server, c: nat, crossNum: int, p: nat)
    requires |s'.children| > 0
  {
    var last := s'.children[|s'.children| - 1];
    && last.client == c && HasEnd(last.fds, STDOUT, WriteEnd(p))
    && HasEnd(last.fds, STDERR, if crossNum < 0 then WriteEnd(p) else Socket(c))
  }

  /** The first of the commands started since s is client c's and reads pipe p. */
  ghost predicate FirstReadsFrom(s: Server, s': Server, c: nat, p: nat)
    requires |s.children| < |s'.children|
  {
    var first := s'.children[|s.children|];
    first.client == c && HasEnd(first.fds, STDIN, ReadEnd(p))
  }

  /** Event m is the line of client c that is n lines after its line k, and the client did not leave. */
  predicate IsLineAfter(events: seq<Event>, k: nat, m: nat, c: nat, n: nat) {
    k < m < |events| && Remains(events, k, m, c) && LineNo(events, m, c) == LineNo(events, k, c) + n
  }

  lemma ReaderComes(n: nat, states: seq<Server>, events: seq<Event>, k: nat, m: nat, c: nat, d: nat, p: nat)
    requires RoomyRun(n, states, events) && |states| == |events| + 1 && IsLineAfter(events, k, m, c, d)
    requires TypesLine(events[k], c) && Waits(states[k + 1], c, LineNo(events, k + 1, c),
                                              LineNo(events, k + 1, c) + d, p)
    requires Types(states[m], events[m], states[m + 1], c)
    ensures FirstReadsFrom(states[m], states[m + 1], c, p)
  {
    hide RoomyRun, Waits, Types;
    RunWaits(n, states, events, k + 1, m, c, LineNo(events, k + 1, c) + d, p);
    DueIsRead(states[m], events[m], states[m + 1], c, LineNo(events, m, c), p);
  }

  /**
    The last command of line L with `|n` writes to a pipe, with `!n` its errors too; the pipe
    waits under line L + n in the client's table; and the first command of the client's line
    L + n, if that starts one and the client did not leave, reads that same pipe.
    */
  lemma WriterMeetsReader(n: nat, states: seq<Server>, events: seq<Event>, k: nat, c: nat) returns (p: nat)
    requires RoomyRun(n, states, events) && k < |events| && |states| == |events| + 1
    requires Types(states[k], events[k], states[k + 1], c) && events[k].x.line.crossNum != 0
    ensures LastWritesTo(states[k + 1], c, events[k].x.line.crossNum, p)
    ensures var line := LineNo(events, k + 1, c);
            Waits(states[k + 1], c, line, line + Abs(events[k].x.line.crossNum), p)
    ensures forall m: nat ::
              IsLineAfter(events, k, m, c, Abs(events[k].x.line.crossNum)) ==>
                Types(states[m], events[m], states[m + 1], c) ==>
                  FirstReadsFrom(states[m], states[m + 1], c, p)
  {
    hide RoomyRun, Waits, Good, Step, FirstReadsFrom, Remains;
    StepOfRun(n, states, events, k);
    p := NumberedWrites(states[k], events[k], states[k + 1], c, LineNo(events, k, c));
    forall m: nat | IsLineAfter(events, k, m, c, Abs(events[k].x.line.crossNum))
      && Types(states[m], events[m], states[m + 1], c)
      ensures FirstReadsFrom(states[m], states[m + 1], c, p)
    {
      ReaderComes(n, states, events, k, m, c, Abs(events[k].x.line.crossNum), p);
    }
  }
}
