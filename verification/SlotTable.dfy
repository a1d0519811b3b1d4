/**
  The table of numbered pipes (`cross_pipe`) of one client, the same in both servers: an
  array of count-downs, the position of the pipe that expires on this line, a hint for the
  lowest free position and a snapshot of the live positions taken once per line.

  `Table` and the functions on it specify the operations; the class `CrossPipe` carries
  them out on arrays as the source does; the lemmas say that the table is a map from the
  number of a future line to the pipe that this line will read.
  */
module SlotTable {
  import Hint
  import opened Options

  /** count is -1 in a free slot. */
  datatype Slot = Slot(count: int, writeFd: int, readFd: int)

  /** `record` is close_fd_record[..data_num]. */
  datatype Table = Table(list: seq<Slot>, outputPoint: int, minInput: nat, record: seq<nat>)

  datatype Pipe = Pipe(writeFd: int, readFd: int)

  // ---- What the operations compute ----

  const FREE := Slot(-1, -1, -1)

  function Initial(n: nat): Table {
    Table(seq(n, i => FREE), -1, 0, [])
  }

  function Ticked(s: Slot): Slot {
    if s.count <= 0 then s else if s.count == 1 then s.(count := -1) else s.(count := s.count - 1)
  }

  /** The last position below n whose count runs out, or -1. */
  function Expired(list: seq<Slot>, n: nat): (r: int)
    requires n <= |list|
    ensures -1 <= r < n
  {
    if n == 0 then -1 else if list[n - 1].count == 1 then n - 1 else Expired(list, n - 1)
  }

  /** The positions below n that go on waiting, in order. */
  function Waiting(list: seq<Slot>, n: nat): seq<nat>
    requires n <= |list|
  {
    if n == 0 then [] else Waiting(list, n - 1) + (if list[n - 1].count > 1 then [n - 1] else [])
  }

  function CountDown(t: Table): Table {
    var out := Expired(t.list, |t.list|);
    Table(seq(|t.list|, i requires 0 <= i < |t.list| => Ticked(t.list[i])), out,
          if 0 <= out < t.minInput then out else t.minInput,
          Waiting(t.list, |t.list|))
  }

  function Abs(x: int): nat {
    if x < 0 then -x else x
  }

  /** The lowest position from `from` on with a negative count. */
  function FirstFree(list: seq<Slot>, from: nat): (r: Option<nat>)
    ensures r.Some? ==> from <= r.value < |list| && list[r.value].count < 0
                        && forall i :: from <= i < r.value ==> list[i].count >= 0
    ensures r.None? ==> forall i :: from <= i < |list| ==> list[i].count >= 0
    decreases |list| - from
  {
    if from >= |list| then None else if list[from].count < 0 then Some(from) else FirstFree(list, from + 1)
  }

  function Update(t: Table, p: Pipe, crossNum: int): Table
    requires t.minInput < |t.list|
  {
    var list := t.list[t.minInput := Slot(Abs(crossNum), p.writeFd, p.readFd)];
    t.(list := list, minInput := match FirstFree(list, 0) case Some(k) => k case None => t.minInput)
  }

  /** The first recorded position, from index k on, whose count is n. */
  function FindFrom(t: Table, n: int, k: nat): (r: Option<nat>)
    requires forall i :: 0 <= i < |t.record| ==> t.record[i] < |t.list|
    ensures r.Some? ==> r.value in t.record && r.value < |t.list| && t.list[r.value].count == n
    ensures r.None? ==> forall i :: k <= i < |t.record| ==> t.list[t.record[i]].count != n
    decreases |t.record| - k
  {
    if k >= |t.record| then None
    else if t.list[t.record[k]].count == n then Some(t.record[k])
    else FindFrom(t, n, k + 1)
  }

  function Find(t: Table, crossNum: int): Option<nat>
    requires forall i :: 0 <= i < |t.record| ==> t.record[i] < |t.list|
  {
    FindFrom(t, Abs(crossNum), 0)
  }

  // ---- The operations in place ----

  class CrossPipe {
    var outputPoint: int
    var minInputPoint: nat
    var dataNum: nat
    var closeFdRecord: array<nat>
    const list: array<Slot>

    ghost predicate Valid()
      reads this, list, closeFdRecord
    {
      && closeFdRecord.Length == dataNum
      && minInputPoint < list.Length
      && forall i :: 0 <= i < dataNum ==> closeFdRecord[i] < list.Length
    }

    ghost function State(): Table
      reads this, list, closeFdRecord
    {
      Table(list[..], outputPoint, minInputPoint, closeFdRecord[..])
    }

    /** initial_cross_pipe_infor */
    constructor (n: nat)
      requires n > 0
      ensures Valid() && fresh(list) && fresh(closeFdRecord) && State() == Initial(n)
    {
      outputPoint, minInputPoint, dataNum := -1, 0, 0;
      closeFdRecord := new nat[0];
      list := new Slot[n](i => FREE);
      new;
      assert list[..] == Initial(n).list;
    }

    /** The counting loop of count_down_and_check; `tmp` collects the positions that go on waiting. */
    method Tick(tmp: array<nat>)
      requires Valid() && tmp.Length == list.Length && tmp != closeFdRecord
      modifies this`dataNum, this`outputPoint, list, tmp
      ensures list[..] == CountDown(old(State())).list
      ensures outputPoint == Expired(old(list[..]), list.Length)
      ensures dataNum <= tmp.Length && tmp[..dataNum] == Waiting(old(list[..]), list.Length)
    {
      ghost var was := list[..];
      dataNum, outputPoint := 0, -1;
      var i := 0;
      while i < list.Length
        invariant 0 <= i <= list.Length && dataNum <= i
        invariant forall k :: 0 <= k < i ==> list[k] == Ticked(was[k])
        invariant forall k :: i <= k < list.Length ==> list[k] == was[k]
        invariant outputPoint == Expired(was, i)
        invariant tmp[..dataNum] == Waiting(was, i)
      {
        if list[i].count > 0 {
          list[i] := list[i].(count := list[i].count - 1);
          if list[i].count == 0 {
            outputPoint := i;
            list[i] := list[i].(count := -1);
          } else {
            tmp[dataNum] := i;
            dataNum := dataNum + 1;
          }
        }
        i := i + 1;
      }
    }

    /** The copying loop of count_down_and_check. */
    method CopyRecord(tmp: array<nat>) returns (copy: array<nat>)
      requires dataNum <= tmp.Length
      ensures fresh(copy) && copy[..] == tmp[..dataNum]
    {
      copy := new nat[dataNum];
      var i := 0;
      while i < dataNum
        invariant 0 <= i <= dataNum
        invariant copy[..i] == tmp[..i]
      {
        copy[i] := tmp[i];
        i := i + 1;
      }
    }

    method CountDownAndCheck()
      requires Valid()
      modifies this, list
      ensures Valid() && fresh(closeFdRecord)
      ensures State() == CountDown(old(State()))
    {
      ghost var was := list[..];
      var tmp := new nat[list.Length];
      Tick(tmp);
      closeFdRecord := CopyRecord(tmp);
      if outputPoint >= 0 && outputPoint < minInputPoint {
        minInputPoint := outputPoint;
      }
      WaitingInRange(was, list.Length);
      ExpiredInRange(was, list.Length);
      assert forall i :: 0 <= i < dataNum ==> closeFdRecord[..][i] in Waiting(was, list.Length);
    }

    method UpdateCrossPipeFd(fd0: int, fd1: int, crossNum: int)
      requires Valid()
      modifies this`minInputPoint, list
      ensures Valid()
      ensures State() == Update(old(State()), Pipe(fd1, fd0), crossNum)
    {
      var count := if crossNum < 0 then -crossNum else crossNum;
      list[minInputPoint] := Slot(count, fd1, fd0);
      ghost var now := list[..];
      assert now == old(list[..])[minInputPoint := Slot(count, fd1, fd0)];
      var i := 0;
      while i < list.Length
        invariant 0 <= i <= list.Length && list[..] == now && minInputPoint == old(minInputPoint)
        invariant FirstFree(now, 0) == FirstFree(now, i)
      {
        if list[i].count < 0 {
          minInputPoint := i;
          return;
        }
        i := i + 1;
      }
    }

    method FindSameCrossPipe(crossNum: int) returns (pos: int, fd0: int, fd1: int)
      requires Valid()
      ensures match Find(State(), crossNum)
              case None => pos == -1
              case Some(p) => pos == p && fd0 == list[p].readFd && fd1 == list[p].writeFd
    {
      var n := if crossNum < 0 then -crossNum else crossNum;
      fd0, fd1 := -1, -1;
      var i := 0;
      while i < dataNum
        invariant 0 <= i <= dataNum
        invariant Find(State(), crossNum) == FindFrom(State(), n, i)
      {
        var fdPos := closeFdRecord[i];
        if n == list[fdPos].count {
          return fdPos, list[fdPos].readFd, list[fdPos].writeFd;
        }
        i := i + 1;
      }
      return -1, fd0, fd1;
    }
  }

  lemma {:induction false} WaitingInRange(list: seq<Slot>, n: nat)
    requires n <= |list|
    ensures forall p: nat :: p in Waiting(list, n) <==> p < n && list[p].count > 1
    ensures forall i :: 0 <= i < |Waiting(list, n)| ==> Waiting(list, n)[i] < n
    ensures forall i, j :: 0 <= i < j < |Waiting(list, n)| ==> Waiting(list, n)[i] < Waiting(list, n)[j]
  {
    if n > 0 { WaitingInRange(list, n - 1); }
  }

  lemma {:induction false} ExpiredInRange(list: seq<Slot>, n: nat)
    requires n <= |list|
    ensures Expired(list, n) >= 0 ==> list[Expired(list, n)].count == 1
    ensures Expired(list, n) < 0 ==> forall i :: 0 <= i < n ==> list[i].count != 1
  {
    if n > 0 { ExpiredInRange(list, n - 1); }
  }

  // ---- The table is a map from future lines to pipes ----

  predicate Live(t: Table, i: nat)
    requires i < |t.list|
  {
    t.list[i].count > 0
  }

  /** Free slots count -1, live counts are positive and pairwise distinct, and no free slot lies below the hint. */
  ghost predicate Ok(t: Table) {
    && (forall i :: 0 <= i < |t.list| ==> t.list[i].count == -1 || t.list[i].count > 0)
    && Distinct(t.list)
    && t.minInput < |t.list|
    && (forall i :: 0 <= i < t.minInput ==> Live(t, i))
  }

  /** The snapshot of this line lists exactly the live slots, as it does until the line adds a pipe. */
  ghost predicate Snapshot(t: Table) {
    && (forall i :: 0 <= i < |t.record| ==> t.record[i] < |t.list| && Live(t, t.record[i]))
    && (forall i :: 0 <= i < |t.list| && Live(t, i) ==> i in t.record)
  }

  predicate HintFree(t: Table) {
    t.minInput < |t.list| && !Live(t, t.minInput)
  }

  function PipeAt(t: Table, i: nat): Pipe
    requires i < |t.list|
  {
    Pipe(t.list[i].writeFd, t.list[i].readFd)
  }

  /** On line `now`: which pipe each later line will read, looking at the first n slots. */
  function ViewTo(list: seq<Slot>, now: int, n: nat): map<int, Pipe>
    requires n <= |list|
  {
    if n == 0 then map[]
    else if list[n - 1].count > 0 then
      ViewTo(list, now, n - 1)[now + list[n - 1].count := Pipe(list[n - 1].writeFd, list[n - 1].readFd)]
    else ViewTo(list, now, n - 1)
  }

  function View(t: Table, now: int): map<int, Pipe> {
    ViewTo(t.list, now, |t.list|)
  }

  ghost predicate Distinct(list: seq<Slot>) {
    forall i, j :: 0 <= i < j < |list| && list[i].count > 0 && list[j].count > 0 ==> list[i].count != list[j].count
  }

  lemma {:induction false} LiveInView(list: seq<Slot>, now: int, n: nat, i: nat)
    requires i < n <= |list| && Distinct(list) && list[i].count > 0
    ensures now + list[i].count in ViewTo(list, now, n)
    ensures ViewTo(list, now, n)[now + list[i].count] == Pipe(list[i].writeFd, list[i].readFd)
  {
    if i < n - 1 { LiveInView(list, now, n - 1, i); }
  }

  /** The slot behind an entry of the view. */
  lemma {:induction false} SlotBehind(list: seq<Slot>, now: int, n: nat, d: int) returns (i: nat)
    requires n <= |list| && Distinct(list) && d in ViewTo(list, now, n)
    ensures i < n && list[i].count > 0 && now + list[i].count == d
    ensures ViewTo(list, now, n)[d] == Pipe(list[i].writeFd, list[i].readFd)
  {
    if list[n - 1].count > 0 && d == now + list[n - 1].count {
      i := n - 1;
    } else {
      i := SlotBehind(list, now, n - 1, d);
    }
  }

  /** A view is known by its slots: every live slot of a is one of b at the same line with the same pipe. */
  lemma ViewIncluded(a: Table, b: Table, nowA: int, nowB: int)
    requires Distinct(a.list) && Distinct(b.list)
    requires forall i :: 0 <= i < |a.list| && a.list[i].count > 0 ==>
               i < |b.list| && b.list[i].count > 0 && nowA + a.list[i].count == nowB + b.list[i].count
                 && PipeAt(a, i) == PipeAt(b, i)
    ensures forall d :: d in View(a, nowA) ==> d in View(b, nowB) && View(a, nowA)[d] == View(b, nowB)[d]
  {
    forall d | d in View(a, nowA)
      ensures d in View(b, nowB) && View(a, nowA)[d] == View(b, nowB)[d]
    {
      var i := SlotBehind(a.list, nowA, |a.list|, d);
      assert PipeAt(a, i) == PipeAt(b, i);
      LiveInView(b.list, nowB, |b.list|, i);
    }
  }

  lemma NothingLive(list: seq<Slot>, now: int, n: nat)
    requires n <= |list| && forall i :: 0 <= i < n ==> list[i].count <= 0
    ensures ViewTo(list, now, n) == map[]
  {
  }

  /** A table only holds pipes for lines to come. */
  lemma ViewIsAhead(t: Table, now: int)
    requires Distinct(t.list)
    ensures forall d :: d in View(t, now) ==> d > now
  {
    forall d | d in View(t, now)
      ensures d > now
    {
      var i := SlotBehind(t.list, now, |t.list|, d);
    }
  }

  lemma InitialOk(n: nat, now: int)
    requires n > 0
    ensures Ok(Initial(n)) && HintFree(Initial(n)) && View(Initial(n), now) == map[]
  {
    NothingLive(Initial(n).list, now, n);
  }

  lemma {:induction false} NothingCounts(n: nat, k: nat)
    requires k <= n
    ensures Waiting(Initial(n).list, k) == [] && Expired(Initial(n).list, k) == -1
  {
    if k > 0 { NothingCounts(n, k - 1); }
  }

  lemma InitialCounted(n: nat)
    ensures CountDown(Initial(n)) == Initial(n)
  {
    NothingCounts(n, n);
    assert CountDown(Initial(n)).list == Initial(n).list;
  }

  lemma CountDownOk(t: Table)
    requires Ok(t)
    ensures Ok(CountDown(t)) && Snapshot(CountDown(t))
  {
    var t' := CountDown(t);
    CountDownSnapshot(t);
    assert forall i :: 0 <= i < |t.list| ==> t'.list[i] == Ticked(t.list[i]);
    forall i | 0 <= i < t'.minInput
      ensures Live(t', i)
    {
      assert Live(t, i);
      OneExpires(t, i);
    }
  }

  lemma CountDownSnapshot(t: Table)
    ensures Snapshot(CountDown(t))
  {
    var t' := CountDown(t);
    WaitingInRange(t.list, |t.list|);
    assert forall i: nat :: i < |t.list| ==> (Live(t', i) <==> i in t'.record);
    forall i | 0 <= i < |t'.record|
      ensures t'.record[i] < |t'.list|
    {
      assert t'.record[i] in t'.record;
    }
  }

  /** At most one pipe expires on a line. */
  lemma OneExpires(t: Table, i: nat)
    requires Ok(t) && i < |t.list|
    ensures t.list[i].count == 1 ==> CountDown(t).outputPoint == i
  {
    ExpiredInRange(t.list, |t.list|);
  }

  /** Counting down advances the line number and pops the pipe of the line reached, if any. */
  lemma CountDownRefines(t: Table, now: int)
    requires Ok(t)
    ensures Ok(CountDown(t)) && Snapshot(CountDown(t))
    ensures View(CountDown(t), now + 1) == View(t, now) - {now + 1}
    ensures CountDown(t).outputPoint >= 0 <==> now + 1 in View(t, now)
    ensures CountDown(t).outputPoint >= 0 ==>
              CountDown(t).outputPoint < |CountDown(t).list|
              && PipeAt(CountDown(t), CountDown(t).outputPoint) == View(t, now)[now + 1]
  {
    var t' := CountDown(t);
    CountDownOk(t);
    ExpiredInRange(t.list, |t.list|);
    assert forall i :: 0 <= i < |t.list| ==> t'.list[i] == Ticked(t.list[i]);
    ViewIncluded(t', t, now + 1, now);
    ViewIsAhead(t', now + 1);
    if t'.outputPoint >= 0 { LiveInView(t.list, now, |t.list|, t'.outputPoint); }
    forall d | d in View(t, now)
      ensures if d == now + 1 then t'.outputPoint >= 0 else d in View(t', now + 1)
    {
      var i := SlotBehind(t.list, now, |t.list|, d);
      if d == now + 1 {
        OneExpires(t, i);
      } else {
        LiveInView(t'.list, now + 1, |t'.list|, i);
      }
    }
    var v, w := View(t', now + 1), View(t, now) - {now + 1};
    hide Ok, Snapshot, Distinct, ViewTo;
    assert forall d :: d in v ==> d in w && v[d] == w[d];
    assert forall d :: d in w ==> d in v;
    assert v == w;
  }

  /** Looking for |n| finds the pipe of line now + |n| exactly when there is one. */
  lemma FindRefines(t: Table, now: int, crossNum: int)
    requires Ok(t) && Snapshot(t) && crossNum != 0
    ensures Find(t, crossNum).Some? <==> now + Abs(crossNum) in View(t, now)
    ensures Find(t, crossNum).Some? ==> View(t, now)[now + Abs(crossNum)] == PipeAt(t, Find(t, crossNum).value)
  {
    if Find(t, crossNum).Some? {
      LiveInView(t.list, now, |t.list|, Find(t, crossNum).value);
    }
    if now + Abs(crossNum) in View(t, now) {
      var i := SlotBehind(t.list, now, |t.list|, now + Abs(crossNum));
      assert Live(t, i) && i in t.record;
    }
  }

  lemma UpdateOk(t: Table, p: Pipe, crossNum: int)
    requires Ok(t) && crossNum != 0
    requires forall i :: 0 <= i < |t.list| && Live(t, i) ==> t.list[i].count != Abs(crossNum)
    ensures Ok(Update(t, p, crossNum))
    ensures HintFree(Update(t, p, crossNum)) <==>
            exists i :: 0 <= i < |t.list| && i != t.minInput && !Live(t, i)
  {
    var t' := Update(t, p, crossNum);
    forall i | 0 <= i < t'.minInput
      ensures Live(t', i)
    {
      if i < t.minInput { assert Live(t, i); }
    }
    if i :| 0 <= i < |t.list| && i != t.minInput && !Live(t, i) {
      assert t'.list[i].count < 0;
    }
    if HintFree(t') { assert t'.minInput != t.minInput && !Live(t, t'.minInput); }
  }

  /** No live slot counts n when line now + n has no pipe. */
  lemma NoSuchCount(t: Table, now: int, n: int)
    requires Ok(t) && now + n !in View(t, now)
    ensures forall i :: 0 <= i < |t.list| && Live(t, i) ==> t.list[i].count != n
  {
    forall i | 0 <= i < |t.list| && Live(t, i)
      ensures t.list[i].count != n
    {
      LiveInView(t.list, now, |t.list|, i);
    }
  }

  /**
    Inserting adds the pipe under line now + |n|. It also drops the pipe of the slot that
    the hint names, so it is an insertion into the map exactly when the hint is free.
    */
  lemma UpdateRefines(t: Table, now: int, p: Pipe, crossNum: int)
    requires Ok(t) && crossNum != 0 && now + Abs(crossNum) !in View(t, now)
    ensures Ok(Update(t, p, crossNum))
    ensures View(Update(t, p, crossNum), now) ==
            (View(t, now) - {now + t.list[t.minInput].count})[now + Abs(crossNum) := p]
    ensures View(Update(t, p, crossNum), now) == View(t, now)[now + Abs(crossNum) := p] <==> HintFree(t)
  {
    NoSuchCount(t, now, Abs(crossNum));
    UpdateOk(t, p, crossNum);
    UpdateView(t, now, p, crossNum);
    var gone := now + t.list[t.minInput].count;
    if HintFree(t) {
      if gone in View(t, now) { var i := SlotBehind(t.list, now, |t.list|, gone); }
      assert View(t, now) - {gone} == View(t, now);
    } else {
      LiveInView(t.list, now, |t.list|, t.minInput);
      assert gone in View(t, now)[now + Abs(crossNum) := p]
        && gone !in (View(t, now) - {gone})[now + Abs(crossNum) := p];
    }
  }

  lemma UpdateView(t: Table, now: int, p: Pipe, crossNum: int)
    requires Ok(t) && crossNum != 0 && Ok(Update(t, p, crossNum))
    requires forall i :: 0 <= i < |t.list| && Live(t, i) ==> t.list[i].count != Abs(crossNum)
    ensures View(Update(t, p, crossNum), now) ==
            (View(t, now) - {now + t.list[t.minInput].count})[now + Abs(crossNum) := p]
  {
    var t' := Update(t, p, crossNum);
    var v, v' := View(t, now), View(t', now);
    var gone, d0 := now + t.list[t.minInput].count, now + Abs(crossNum);
    LiveInView(t'.list, now, |t'.list|, t.minInput);
    forall d | d in v'
      ensures d == d0 || (d in v && d != gone && v[d] == v'[d])
    {
      var i := SlotBehind(t'.list, now, |t'.list|, d);
      if i != t.minInput { LiveInView(t.list, now, |t.list|, i); }
    }
    forall d | d in v && d != gone
      ensures d in v'
    {
      var i := SlotBehind(t.list, now, |t.list|, d);
      LiveInView(t'.list, now, |t'.list|, i);
    }
    assert v' == (v - {gone})[d0 := p];
  }

  // ---- The hint ----

  /** The table as the hint allocator of module Hint sees it. */
  function AsHint(t: Table): Hint.Table {
    Hint.Table(seq(|t.list|, i requires 0 <= i < |t.list| => t.list[i].count > 0), t.minInput)
  }

  lemma FirstFreeAgree(t: Table, list: seq<Slot>, k: nat)
    requires |t.list| == |list| && k <= |list|
    requires forall i :: 0 <= i < |list| ==> list[i].count == -1 || list[i].count > 0
    requires t.list == list
    ensures FirstFree(list, k).Some? == Hint.FirstFree(AsHint(t).used, k).Some?
    ensures FirstFree(list, k).Some? ==> FirstFree(list, k).value == Hint.FirstFree(AsHint(t).used, k).value
    decreases |list| - k
  {
    if k < |list| && list[k].count >= 0 { FirstFreeAgree(t, list, k + 1); }
  }

  /** An expiry gives its slot back; inserting takes the slot that the hint names. */
  lemma TableIsHintAllocator(t: Table, p: Pipe, crossNum: int)
    requires Ok(t) && crossNum != 0
    ensures AsHint(CountDown(t)) == (if CountDown(t).outputPoint >= 0
                                     then Hint.Given(AsHint(t), CountDown(t).outputPoint)
                                     else AsHint(t))
    ensures AsHint(Update(t, p, crossNum)) == Hint.Taken(AsHint(t))
  {
    CountDownFrees(t);
    UpdateTakes(t, p, crossNum);
  }

  lemma CountDownFrees(t: Table)
    requires Ok(t)
    ensures AsHint(CountDown(t)) == (if CountDown(t).outputPoint >= 0
                                     then Hint.Given(AsHint(t), CountDown(t).outputPoint)
                                     else AsHint(t))
  {
    var t' := CountDown(t);
    ExpiredInRange(t.list, |t.list|);
    var want := if t'.outputPoint >= 0 then Hint.Given(AsHint(t), t'.outputPoint) else AsHint(t);
    forall i | 0 <= i < |t.list|
      ensures AsHint(t').used[i] == want.used[i]
    {
      OneExpires(t, i);
      assert t'.list[i] == Ticked(t.list[i]);
    }
    assert AsHint(t').used == want.used;
  }

  lemma UpdateTakes(t: Table, p: Pipe, crossNum: int)
    requires Ok(t) && crossNum != 0
    ensures AsHint(Update(t, p, crossNum)) == Hint.Taken(AsHint(t))
  {
    var t' := Update(t, p, crossNum);
    assert AsHint(t').used == AsHint(t).used[t.minInput := true];
    FirstFreeAgree(t', t'.list, 0);
  }

  // ---- Whole sessions ----

  /** What one line does to the table: the `|n` or `!n` of the line (0 for none) and the pipe it would create. */
  datatype Typed = Typed(crossNum: int, pipe: Pipe)

  function Line(t: Table, line: Typed): Table
    requires Ok(t)
  {
    CountDownOk(t);
    var t1 := CountDown(t);
    if line.crossNum == 0 || Find(t1, line.crossNum).Some? then t1 else Update(t1, line.pipe, line.crossNum)
  }

  /** The same on a map from lines to pipes. */
  function MapLine(m: map<int, Pipe>, now: int, line: Typed): map<int, Pipe> {
    var m1 := m - {now + 1};
    if line.crossNum == 0 || now + 1 + Abs(line.crossNum) in m1 then m1
      else m1[now + 1 + Abs(line.crossNum) := line.pipe]
  }

  lemma LineRefines(t: Table, now: int, line: Typed)
    requires Ok(t)
    ensures Ok(Line(t, line)) && |Line(t, line).list| == |t.list|
    ensures HintFree(CountDown(t)) || line.crossNum == 0 ==>
              View(Line(t, line), now + 1) == MapLine(View(t, now), now, line)
  {
    CountDownRefines(t, now);
    var t1 := CountDown(t);
    if line.crossNum != 0 {
      FindRefines(t1, now + 1, line.crossNum);
      if Find(t1, line.crossNum).None? { UpdateRefines(t1, now + 1, line.pipe, line.crossNum); }
    }
  }

  function TableAfter(n: nat, lines: seq<Typed>): (t: Table)
    requires n > 0
    ensures Ok(t) && |t.list| == n
  {
    if lines == [] then InitialOk(n, 0); Initial(n)
    else
      var t := TableAfter(n, lines[..|lines| - 1]);
      LineRefines(t, 0, lines[|lines| - 1]);
      Line(t, lines[|lines| - 1])
  }

  function MapAfter(lines: seq<Typed>): map<int, Pipe> {
    if lines == [] then map[] else MapLine(MapAfter(lines[..|lines| - 1]), |lines| - 1, lines[|lines| - 1])
  }

  ghost predicate HasRoom(t: Table) {
    exists i :: 0 <= i < |t.list| && !Live(t, i)
  }

  lemma CountDownKeepsHint(t: Table)
    requires Ok(t) && HintFree(t)
    ensures HintFree(CountDown(t))
  {
    ExpiredInRange(t.list, |t.list|);
    assert Ticked(t.list[t.minInput]).count <= 0;
  }

  lemma LineKeepsHint(t: Table, line: Typed)
    requires Ok(t) && HintFree(t) && HasRoom(Line(t, line))
    ensures HintFree(Line(t, line))
  {
    CountDownOk(t);
    CountDownKeepsHint(t);
    var t1 := CountDown(t);
    if line.crossNum != 0 && Find(t1, line.crossNum).None? {
      var i :| 0 <= i < |t.list| && !Live(Line(t, line), i);
      FindNoneMeansNew(t1, line.crossNum);
      UpdateOk(t1, line.pipe, line.crossNum);
    }
  }

  lemma FindNoneMeansNew(t: Table, crossNum: int)
    requires Ok(t) && Snapshot(t) && Find(t, crossNum).None?
    ensures forall i :: 0 <= i < |t.list| && Live(t, i) ==> t.list[i].count != Abs(crossNum)
  {
  }

  /**
    For every session that keeps a slot free, the table is the map: after each line it
    holds exactly the pipes that later lines will read, each under its line.
    */
  lemma {:induction false} SessionIsMap(n: nat, lines: seq<Typed>)
    requires n > 0
    requires forall k :: 0 <= k <= |lines| ==> HasRoom(TableAfter(n, lines[..k]))
    ensures View(TableAfter(n, lines), |lines|) == MapAfter(lines)
    ensures HintFree(TableAfter(n, lines))
  {
    if lines == [] {
      InitialOk(n, 0);
    } else {
      var before, last := lines[..|lines| - 1], lines[|lines| - 1];
      forall k | 0 <= k <= |before|
        ensures HasRoom(TableAfter(n, before[..k]))
      {
        assert before[..k] == lines[..k];
      }
      SessionIsMap(n, before);
      var t := TableAfter(n, before);
      assert lines[..|lines|] == lines;
      CountDownKeepsHint(t);
      LineRefines(t, |before|, last);
      LineKeepsHint(t, last);
    }
  }
}
