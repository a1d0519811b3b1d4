/**
  A table of slots with a hint that is meant to name its lowest free slot.

  Both servers use it twice: for client ids (`min_id`) and for numbered pipes
  (`min_input_point`). Taking marks the slot the hint names and rescans for the lowest free
  one; when the scan finds none the hint stays. Giving slot k back lowers the hint to k if
  k is below it. The hint therefore goes wrong once the table has been full, and this
  module says exactly when.
  */
module Hint {
  import opened Options

  datatype Table = Table(used: seq<bool>, hint: nat)

  datatype Event = Take | Give(slot: nat)

  function FirstFree(used: seq<bool>, from: nat): (r: Option<nat>)
    ensures r.Some? ==> from <= r.value < |used| && !used[r.value] && forall i :: from <= i < r.value ==> used[i]
    ensures r.None? ==> forall i :: from <= i < |used| ==> used[i]
    decreases |used| - from
  {
    if from >= |used| then None else if !used[from] then Some(from) else FirstFree(used, from + 1)
  }

  function Empty(n: nat): Table {
    Table(seq(n, i => false), 0)
  }

  predicate Full(t: Table) {
    forall i :: 0 <= i < |t.used| ==> t.used[i]
  }

  function Taken(t: Table): Table
    requires t.hint < |t.used|
  {
    var used := t.used[t.hint := true];
    Table(used, match FirstFree(used, 0) case Some(k) => k case None => t.hint)
  }

  function Given(t: Table, k: nat): Table
    requires k < |t.used|
  {
    Table(t.used[k := false], if k < t.hint then k else t.hint)
  }

  /** An event that hits no other user: taking finds the hinted slot free, giving finds its slot in use. */
  predicate Possible(t: Table, e: Event) {
    && t.hint < |t.used|
    && match e case Take => !t.used[t.hint] case Give(k) => k < |t.used| && t.used[k]
  }

  function After(t: Table, e: Event): Table
    requires Possible(t, e)
  {
    match e case Take => Taken(t) case Give(k) => Given(t, k)
  }

  ghost predicate IsRun(n: nat, states: seq<Table>, events: seq<Event>) {
    && n >= 1 && |states| == |events| + 1 && states[0] == Empty(n)
    && forall k :: 0 <= k < |events| ==> Possible(states[k], events[k]) && states[k + 1] == After(states[k], events[k])
  }

  /** No free slot lies below the hint; this much is always true. */
  predicate NoneBelow(t: Table) {
    t.hint < |t.used| && forall i :: 0 <= i < t.hint ==> t.used[i]
  }

  lemma {:induction false} RunKeepsNoneBelow(n: nat, states: seq<Table>, events: seq<Event>, k: nat)
    requires IsRun(n, states, events) && k < |states|
    ensures NoneBelow(states[k]) && |states[k].used| == n
  {
    if k > 0 {
      RunKeepsNoneBelow(n, states, events, k - 1);
    }
  }

  /** Event t filled the table, and since then only slots above the one it took were given back. */
  ghost predicate StaleSince(states: seq<Table>, events: seq<Event>, t: nat, k: nat)
    requires |states| == |events| + 1
  {
    && t < k <= |events| && events[t] == Take && Full(states[t + 1])
    && forall i :: t < i < k ==> events[i].Give? && events[i].slot > states[t].hint
  }

  lemma {:induction false} StaleKeepsHint(n: nat, states: seq<Table>, events: seq<Event>, t: nat, k: nat)
    requires IsRun(n, states, events) && StaleSince(states, events, t, k)
    ensures states[k].hint == states[t].hint < |states[k].used| && states[k].used[states[k].hint]
  {
    RunKeepsNoneBelow(n, states, events, t + 1);
    if k > t + 1 { StaleKeepsHint(n, states, events, t, k - 1); }
  }

  lemma RunStep(n: nat, states: seq<Table>, events: seq<Event>, k: nat)
    requires IsRun(n, states, events) && k < |events|
    ensures |states| == |events| + 1 && Possible(states[k], events[k]) && states[k + 1] == After(states[k], events[k])
    ensures NoneBelow(states[k])
  {
    RunKeepsNoneBelow(n, states, events, k);
  }

  lemma FirstTableIsEmpty(n: nat, states: seq<Table>, events: seq<Event>)
    requires IsRun(n, states, events)
    ensures |states[0].used| > 0 && !states[0].used[0] && states[0].hint == 0
  {
  }

  lemma {:induction false} UsedMeansStale(n: nat, states: seq<Table>, events: seq<Event>, k: nat)
    requires IsRun(n, states, events) && |states| == |events| + 1 && k < |states|
    requires states[k].hint < |states[k].used| && states[k].used[states[k].hint]
    ensures exists t :: StaleSince(states, events, t, k)
  {
    hide IsRun;
    FirstTableIsEmpty(n, states, events);
    RunStep(n, states, events, k - 1);
    match events[k - 1]
    case Take =>
      assert StaleSince(states, events, k - 1, k);
    case Give(slot) =>
      UsedMeansStale(n, states, events, k - 1);
      var t :| StaleSince(states, events, t, k - 1);
      StaleKeepsHint(n, states, events, t, k - 1);
      assert StaleSince(states, events, t, k);
  }

  /**
    The hint names a slot in use exactly when, since a take filled the table, only slots
    above the one it took have been given back.
    */
  lemma StaleExactlyWhen(n: nat, states: seq<Table>, events: seq<Event>, k: nat)
    requires IsRun(n, states, events) && k < |states|
    ensures states[k].hint < |states[k].used|
    ensures states[k].used[states[k].hint] <==> exists t :: StaleSince(states, events, t, k)
  {
    RunKeepsNoneBelow(n, states, events, k);
    if states[k].used[states[k].hint] {
      UsedMeansStale(n, states, events, k);
    } else if t :| StaleSince(states, events, t, k) {
      StaleKeepsHint(n, states, events, t, k);
    }
  }

  /** In a run that keeps a slot free the hint is the lowest free slot throughout. */
  lemma RoomKeepsHintRight(n: nat, states: seq<Table>, events: seq<Event>, k: nat)
    requires IsRun(n, states, events) && k < |states|
    requires forall i :: 0 <= i < |states| ==> !Full(states[i])
    ensures FirstFree(states[k].used, 0) == Some(states[k].hint)
  {
    RunKeepsNoneBelow(n, states, events, k);
    StaleExactlyWhen(n, states, events, k);
  }

  // ---- The bound is tight ----

  /** The table after k takes. */
  function Fill(n: nat, k: nat): (t: Table)
    requires k <= n && n >= 1
    ensures |t.used| == n && t.hint == (if k < n then k else n - 1)
    ensures forall i :: 0 <= i < n ==> t.used[i] == (i < k)
  {
    if k == 0 then Empty(n)
    else
      var t := Fill(n, k - 1);
      var used := t.used[t.hint := true];
      assert forall i :: 0 <= i < n ==> used[i] == (i < k);
      assert k < n ==> !used[k];
      Taken(t)
  }

  /**
    Fill all n slots, give a back, take once (which gets a again), give b > a back: slot b
    is free, but the hint names the used slot a, so the next take is given a slot in use.
    */
  lemma FullTableMisleads(n: nat, a: nat, b: nat)
    requires a < b < n
    ensures var t := Given(Taken(Given(Fill(n, n), a)), b);
            t.hint == a && t.used[a] && !t.used[b] && !Possible(t, Take)
  {
  }
}
