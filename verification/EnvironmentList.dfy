/**
  The list of environment variables as nodes linked by pointers, and what delete_env_var does
  to it. The loop reads the successor of a node that it has just freed, which C leaves
  undefined; here a freed node keeps its contents.
  */
module EnvironmentList {
  import opened Environment
  import opened Options

  /** A node of the list; `next` is an address, 0 for none. */
  datatype Node = Node(v: Var, next: nat, freed: bool)

  /** The address of position j, where position 0 is the head, which is at address 0. */
  function At(chain: seq<nat>, j: nat): nat
    requires j <= |chain|
  {
    if j == 0 then 0 else chain[j - 1]
  }

  /** What the `next` of position j should be. */
  function NextIn(chain: seq<nat>, j: nat): nat {
    if j < |chain| then chain[j] else 0
  }

  /** The chain lists different addresses of nodes behind the head. */
  predicate Addresses(nodes: seq<Node>, chain: seq<nat>) {
    && |nodes| > 0 && (forall j :: 0 <= j < |chain| ==> 0 < chain[j] < |nodes|)
    && (forall i, j :: 0 <= i < j < |chain| ==> chain[i] != chain[j])
  }

  /** The pointers lead from the head through the chain. */
  predicate Linked(nodes: seq<Node>, chain: seq<nat>) {
    Addresses(nodes, chain) && forall j :: 0 <= j <= |chain| ==> nodes[At(chain, j)].next == NextIn(chain, j)
  }

  /** The variables of the list. */
  function Listing(nodes: seq<Node>, chain: seq<nat>): (vars: seq<Var>)
    requires Addresses(nodes, chain)
    ensures |vars| == |chain| && forall j :: 0 <= j < |chain| ==> vars[j] == nodes[chain[j]].v
  {
    seq(|chain|, j requires 0 <= j < |chain| => nodes[chain[j]].v)
  }

  /** The variable loses its last user when client id leaves. */
  predicate Goes(v: Var, id: nat)
    requires id < |v.values|
  {
    v.values[id].Some? && v.userNum == 1
  }

  /** The variable without the value of client id. */
  function Without(v: Var, id: nat): Var
    requires id < |v.values|
  {
    if v.values[id].None? then v
    else v.(values := v.values[id := None], userNum := if v.userNum >= 0 then v.userNum - 1 else v.userNum)
  }

  predicate HasRows(vars: seq<Var>, id: nat) {
    forall i :: 0 <= i < |vars| ==> id < |vars[i].values| && vars[i].userNum != 0
  }

  /** The first variable that goes, or the number of variables. */
  function FirstGone(vars: seq<Var>, id: nat, from: nat): (k: nat)
    requires HasRows(vars, id) && from <= |vars|
    ensures from <= k <= |vars| && (k < |vars| ==> Goes(vars[k], id))
    ensures forall i :: from <= i < k ==> !Goes(vars[i], id)
    decreases |vars| - from
  {
    if from == |vars| || Goes(vars[from], id) then from else FirstGone(vars, id, from + 1)
  }

  /** How many of the first k variables go. */
  function LastUses(vars: seq<Var>, id: nat, k: nat): (n: nat)
    requires HasRows(vars, id) && k <= |vars|
    ensures n <= k
  {
    if k == 0 then 0 else LastUses(vars, id, k - 1) + (if Goes(vars[k - 1], id) then 1 else 0)
  }

  function WithoutAt<T>(s: seq<T>, k: nat): seq<T>
    requires k <= |s|
  {
    if k < |s| then s[..k] + s[k + 1..] else s
  }

  /** What the loop does: it frees every node whose variable goes, and unlinks the first of them. */
  ghost predicate Deleted(nodes: seq<Node>, chain: seq<nat>, id: nat, nodes': seq<Node>, chain': seq<nat>)
    requires Addresses(nodes, chain) && HasRows(Listing(nodes, chain), id)
  {
    var vars := Listing(nodes, chain);
    && |nodes'| == |nodes| && chain' == WithoutAt(chain, FirstGone(vars, id, 0)) && Linked(nodes', chain')
    && forall j :: 0 <= j < |chain| ==>
         var node := nodes'[chain[j]]; node.v == Without(vars[j], id) && node.freed == Goes(vars[j], id)
  }

  /** One round of the loop, before it moves on. */
  function Visited(nodes: seq<Node>, pos: nat, pre: nat, id: nat): seq<Node>
    requires pos < |nodes| && pre < |nodes| && id < |nodes[pos].v.values|
  {
    var out := nodes[pos := nodes[pos].(v := Without(nodes[pos].v, id))];
    if !Goes(nodes[pos].v, id) then out
    else
      var cut := out[pre := out[pre].(next := out[pos].next)];
      cut[pos := cut[pos].(freed := true)]
  }

  lemma PlacesDiffer(nodes: seq<Node>, chain: seq<nat>)
    requires Addresses(nodes, chain)
    ensures forall i, j :: 0 <= i < j <= |chain| ==> At(chain, i) != At(chain, j)
  {
  }

  /** The pointers after one round. */
  lemma RoundLinks(was: seq<Node>, chain: seq<nat>, id: nat, nodes: seq<Node>, i: nat, pos: nat, pre: nat)
    requires Addresses(was, chain) && HasRows(Listing(was, chain), id) && Walked(was, chain, id, nodes, i)
    requires i < |chain| && pos == chain[i] && pre == Follower(was, chain, id, i)
    ensures pos < |nodes| && pre < |nodes| && id < |nodes[pos].v.values| && nodes[pos].v.userNum != 0
    ensures var out := Visited(nodes, pos, pre, id);
            && out[pos].next == NextIn(chain, i + 1) && out[pre].next == Follower(was, chain, id, i + 1)
            && forall j :: 0 <= j <= |chain| ==>
                 out[At(chain, j)].next
                 == NextIn(chain, if j == FirstGone(Listing(was, chain), id, 0) < i + 1 then j + 1 else j)
  {
    var vars := Listing(was, chain);
    var k := FirstGone(vars, id, 0);
    PlacesDiffer(was, chain);
    assert At(chain, i + 1) == pos && nodes[pos].v == vars[i];
    var out := Visited(nodes, pos, pre, id);
    if i < k { assert !Goes(vars[i], id); }
    hide FirstGone;
    forall j | 0 <= j <= |chain|
      ensures out[At(chain, j)].next == NextIn(chain, if j == k < i + 1 then j + 1 else j)
    {
      assert At(chain, j) != pos || j == i + 1;
    }
  }

  /** One round of the loop. */
  lemma RoundWalks(was: seq<Node>, chain: seq<nat>, id: nat, nodes: seq<Node>, i: nat, pos: nat, pre: nat)
    requires Addresses(was, chain) && HasRows(Listing(was, chain), id) && Walked(was, chain, id, nodes, i)
    requires i < |chain| && pos == chain[i] && pre == Follower(was, chain, id, i)
    ensures pos < |nodes| && pre < |nodes| && id < |nodes[pos].v.values| && nodes[pos].v.userNum != 0
    ensures var out := Visited(nodes, pos, pre, id);
            && Walked(was, chain, id, out, i + 1)
            && out[pos].next == NextIn(chain, i + 1) && out[pre].next == Follower(was, chain, id, i + 1)
  {
    RoundLinks(was, chain, id, nodes, i, pos, pre);
    hide FirstGone, Follower, NextIn, At;
  }

  lemma WalkStarts(nodes: seq<Node>, chain: seq<nat>, id: nat)
    requires Linked(nodes, chain) && HasRows(Listing(nodes, chain), id)
    requires forall j :: 0 <= j < |chain| ==> !nodes[chain[j]].freed
    ensures Walked(nodes, chain, id, nodes, 0) && nodes[0].next == NextIn(chain, 0)
            && Follower(nodes, chain, id, 0) == 0
  {
    assert nodes[At(chain, 0)].next == NextIn(chain, 0);
  }

  lemma RowsListed(vars: seq<Var>, rows: nat, id: nat)
    requires ListOk(vars, rows) && id < rows
    ensures HasRows(vars, id)
  {
  }

  lemma CutChain(nodes: seq<Node>, chain: seq<nat>, k: nat, j: nat)
    requires Addresses(nodes, chain) && k <= |chain|
    ensures Addresses(nodes, WithoutAt(chain, k))
    ensures var cut := WithoutAt(chain, k);
            j <= |cut| ==>
              && (j <= k ==> At(cut, j) == At(chain, j))
              && (j > k ==> j < |chain| && At(cut, j) == At(chain, j + 1))
              && NextIn(cut, j) == NextIn(chain, if k < |chain| && j >= k then j + 1 else j)
  {
  }

  /** Without the first node that goes the list is linked again. */
  lemma WalkedIsLinked(was: seq<Node>, chain: seq<nat>, id: nat, nodes: seq<Node>)
    requires Linked(was, chain) && HasRows(Listing(was, chain), id) && Walked(was, chain, id, nodes, |chain|)
    ensures Linked(nodes, WithoutAt(chain, FirstGone(Listing(was, chain), id, 0)))
  {
    var k := FirstGone(Listing(was, chain), id, 0);
    var cut := WithoutAt(chain, k);
    CutChain(nodes, chain, k, 0);
    hide HasRows, WithoutAt, At, NextIn, Listing, FirstGone;
    forall j | 0 <= j <= |cut|
      ensures nodes[At(cut, j)].next == NextIn(cut, j)
    {
      CutChain(nodes, chain, k, j);
      if j > k { assert nodes[At(chain, j + 1)].next == NextIn(chain, j + 1); }
    }
  }

  class VarList {
    var nodes: seq<Node>
    ghost var chain: seq<nat>

    /** The list is linked, no node in it has been freed, and every variable has a row for each client. */
    ghost predicate Valid(rows: nat)
      reads this
    {
      && Linked(nodes, chain) && ListOk(Listing(nodes, chain), rows)
      && forall j :: 0 <= j < |chain| ==> !nodes[chain[j]].freed
    }

    /** The list of a single variable behind its head. */
    constructor (v: Var, head: Var)
      ensures Linked(nodes, chain) && Listing(nodes, chain) == [v] && fresh(this)
      ensures forall rows: nat :: VarOk(v, rows) ==> Valid(rows)
    {
      nodes := [Node(head, 1, false), Node(v, 0, false)];
      chain := [1];
      new;
      assert Listing(nodes, chain) == [v];
    }

    /** The body of delete_env_var's loop, up to its moving on. */
    method Visit(pos: nat, pre: nat, id: nat)
      requires pos < |nodes| && pre < |nodes| && id < |nodes[pos].v.values| && nodes[pos].v.userNum != 0
      modifies this`nodes
      ensures nodes == Visited(old(nodes), pos, pre, id)
    {
      if nodes[pos].v.values[id].Some? {
        nodes := nodes[pos := nodes[pos].(v := nodes[pos].v.(values := nodes[pos].v.values[id := None]))];
        if nodes[pos].v.userNum >= 0 {
          nodes := nodes[pos := nodes[pos].(v := nodes[pos].v.(userNum := nodes[pos].v.userNum - 1))];
        }
        if nodes[pos].v.userNum == 0 {
          nodes := nodes[pre := nodes[pre].(next := nodes[pos].next)];
          nodes := nodes[pos := nodes[pos].(freed := true)];
        }
      }
    }

    /** delete_env_var, pointer by pointer. */
    method DeleteEnvVar(id: nat, ghost rows: nat)
      requires Valid(rows) && id < rows
      modifies this
      ensures HasRows(Listing(old(nodes), old(chain)), id)
      ensures Deleted(old(nodes), old(chain), id, nodes, chain)
    {
      ghost var was, links := nodes, chain;
      ghost var vars := Listing(was, links);
      RowsListed(vars, rows, id);
      hide ListOk, HasRows, Visited, Listing, FirstGone, WithoutAt, Walked, Follower;
      ghost var k := FirstGone(vars, id, 0);
      ghost var i := 0;
      var pos, pre := nodes[0].next, 0;
      WalkStarts(was, links, id);
      while pos != 0
        invariant |nodes| == |was| && chain == links && 0 <= i <= |links|
        invariant pos == NextIn(links, i) && pre == Follower(was, links, id, i)
        invariant Walked(was, links, id, nodes, i)
        decreases |links| - i
      {
        RoundWalks(was, links, id, nodes, i, pos, pre);
        Visit(pos, pre, id);
        pos := nodes[pos].next;
        pre := nodes[pre].next;
        i := i + 1;
      }
      WalkedIsLinked(was, links, id, nodes);
      chain := WithoutAt(chain, k);
    }
  }

  /** Where `pre` points when `pos` is at position i: behind the first node unlinked it is `pos` itself. */
  function Follower(nodes: seq<Node>, chain: seq<nat>, id: nat, i: nat): nat
    requires Addresses(nodes, chain) && HasRows(Listing(nodes, chain), id) && i <= |chain|
  {
    if FirstGone(Listing(nodes, chain), id, 0) < i then NextIn(chain, i) else At(chain, i)
  }

  /** The loop has passed the first i positions. */
  ghost predicate Walked(was: seq<Node>, chain: seq<nat>, id: nat, nodes: seq<Node>, i: nat)
    requires Addresses(was, chain) && HasRows(Listing(was, chain), id)
  {
    var vars := Listing(was, chain);
    var k := FirstGone(vars, id, 0);
    && |nodes| == |was|
    && (forall j :: 0 <= j <= |chain| ==>
          nodes[At(chain, j)].next == NextIn(chain, if j == k < i then j + 1 else j))
    && (forall j :: 0 <= j < |chain| ==>
          var node := nodes[chain[j]];
          node.v == (if j < i then Without(vars[j], id) else vars[j]) && node.freed == (j < i && Goes(vars[j], id)))
  }

  // ---- When that is what was meant ----

  lemma {:induction false} LastUsesCount(vars: seq<Var>, id: nat, m: nat)
    requires HasRows(vars, id) && m <= |vars|
    ensures var k := FirstGone(vars, id, 0);
            && (LastUses(vars, id, m) == 0 <==> m <= k)
            && (LastUses(vars, id, m) >= 2 <==> exists j :: k < j < m && Goes(vars[j], id))
  {
    if m > 0 {
      LastUsesCount(vars, id, m - 1);
      var k := FirstGone(vars, id, 0);
      hide HasRows, FirstGone;
      if Goes(vars[m - 1], id) && k < m - 1 { assert exists j :: k < j < m && Goes(vars[j], id); }
    }
  }

  /** What is at a position of the list after the loop. */
  lemma KeptAt(nodes: seq<Node>, chain: seq<nat>, id: nat, nodes': seq<Node>, chain': seq<nat>, j: nat)
    requires Linked(nodes, chain) && HasRows(Listing(nodes, chain), id) && Deleted(nodes, chain, id, nodes', chain')
    requires j < |chain'|
    ensures var vars := Listing(nodes, chain);
            var l := if j < FirstGone(vars, id, 0) then j else j + 1;
            && l < |chain| && nodes'[chain'[j]].v == Without(vars[l], id)
            && nodes'[chain'[j]].freed == Goes(vars[l], id)
  {
    var k := FirstGone(Listing(nodes, chain), id, 0);
    hide FirstGone, HasRows;
    assert chain'[j] == chain[if j < k then j else j + 1];
  }

  lemma DanglingGoes(nodes: seq<Node>, chain: seq<nat>, id: nat, nodes': seq<Node>, chain': seq<nat>, j: nat)
    requires Linked(nodes, chain) && HasRows(Listing(nodes, chain), id) && Deleted(nodes, chain, id, nodes', chain')
    requires j < |chain'| && nodes'[chain'[j]].freed
    ensures FirstGone(Listing(nodes, chain), id, 0) < j + 1 < |chain| && Goes(Listing(nodes, chain)[j + 1], id)
  {
    KeptAt(nodes, chain, id, nodes', chain', j);
    assert j >= FirstGone(Listing(nodes, chain), id, 0);
    hide Deleted, Linked, HasRows, FirstGone;
  }

  lemma GoesDangles(nodes: seq<Node>, chain: seq<nat>, id: nat, nodes': seq<Node>, chain': seq<nat>, j: nat)
    requires Linked(nodes, chain) && HasRows(Listing(nodes, chain), id) && Deleted(nodes, chain, id, nodes', chain')
    requires FirstGone(Listing(nodes, chain), id, 0) < j < |chain| && Goes(Listing(nodes, chain)[j], id)
    ensures j - 1 < |chain'| && nodes'[chain'[j - 1]].freed
  {
    assert |chain'| == |chain| - 1;
    hide Deleted, Linked, HasRows, FirstGone;
    KeptAt(nodes, chain, id, nodes', chain', j - 1);
  }

  /**
    A node that was freed stays in the list if and only if two or more variables lose their
    last user: behind the first node that it unlinks the loop has lost its place, and frees
    the others without unlinking them.
    */
  lemma DanglingExactlyWhen(nodes: seq<Node>, chain: seq<nat>, id: nat, nodes': seq<Node>, chain': seq<nat>)
    requires Linked(nodes, chain) && HasRows(Listing(nodes, chain), id) && Deleted(nodes, chain, id, nodes', chain')
    ensures (exists j :: 0 <= j < |chain'| && nodes'[chain'[j]].freed)
            <==> LastUses(Listing(nodes, chain), id, |chain|) >= 2
  {
    var vars := Listing(nodes, chain);
    var k := FirstGone(vars, id, 0);
    LastUsesCount(vars, id, |chain|);
    hide Deleted, Linked, HasRows, FirstGone, LastUses, Listing;
    if j: nat :| j < |chain'| && nodes'[chain'[j]].freed { DanglingGoes(nodes, chain, id, nodes', chain', j); }
    if j :| k < j < |chain| && Goes(vars[j], id) { GoesDangles(nodes, chain, id, nodes', chain', j); }
  }

  /** All variables without the client's values. */
  function AllWithout(vars: seq<Var>, id: nat, m: nat): (r: seq<Var>)
    requires HasRows(vars, id) && m <= |vars|
    ensures |r| == m && forall j :: 0 <= j < m ==> r[j] == Without(vars[j], id)
  {
    seq(m, j requires 0 <= j < m => Without(vars[j], id))
  }

  lemma AllWithoutNext(vars: seq<Var>, id: nat, m: nat)
    requires HasRows(vars, id) && 0 < m <= |vars|
    ensures AllWithout(vars, id, m) == AllWithout(vars, id, m - 1) + [Without(vars[m - 1], id)]
  {
  }

  /** The filter that is meant drops one variable for each last use. */
  lemma {:induction false} DropAllCounts(vars: seq<Var>, id: nat, m: nat)
    requires HasRows(vars, id) && m <= |vars|
    ensures |DropAll(vars, id, m)| == m - LastUses(vars, id, m)
  {
    if m > 0 { DropAllCounts(vars, id, m - 1); }
  }

  /** Up to the first variable that goes it keeps all. */
  lemma {:induction false} DropAllNone(vars: seq<Var>, id: nat, m: nat)
    requires HasRows(vars, id) && m <= |vars| && LastUses(vars, id, m) == 0
    ensures DropAll(vars, id, m) == AllWithout(vars, id, m)
  {
    if m > 0 {
      DropAllNone(vars, id, m - 1);
      AllWithoutNext(vars, id, m);
    }
  }

  /** And when no other goes, it keeps all but that one. */
  lemma {:induction false} DropAllOne(vars: seq<Var>, id: nat, m: nat)
    requires HasRows(vars, id) && FirstGone(vars, id, 0) < m <= |vars| && LastUses(vars, id, m) == 1
    ensures DropAll(vars, id, m) == WithoutAt(AllWithout(vars, id, m), FirstGone(vars, id, 0))
  {
    var k := FirstGone(vars, id, 0);
    LastUsesCount(vars, id, m - 1);
    AllWithoutNext(vars, id, m);
    var all, d := AllWithout(vars, id, m - 1), Without(vars[m - 1], id);
    CutNext(all, d, k);
    if m - 1 == k {
      DropAllNone(vars, id, m - 1);
    } else {
      assert !Goes(vars[m - 1], id);
      hide FirstGone, AllWithout, HasRows, WithoutAt;
      DropAllOne(vars, id, m - 1);
    }
  }

  lemma CutNext<T>(s: seq<T>, x: T, k: nat)
    requires k <= |s|
    ensures WithoutAt(s + [x], k) == if k == |s| then s else WithoutAt(s, k) + [x]
  {
  }

  /** The list is what the filter leaves if and only if at most one variable loses its last user. */
  lemma AsMeantExactlyWhen(nodes: seq<Node>, chain: seq<nat>, id: nat, nodes': seq<Node>, chain': seq<nat>)
    requires Linked(nodes, chain) && HasRows(Listing(nodes, chain), id) && Deleted(nodes, chain, id, nodes', chain')
    ensures Listing(nodes', chain') == DropAll(Listing(nodes, chain), id, |chain|)
            <==> LastUses(Listing(nodes, chain), id, |chain|) <= 1
  {
    var vars := Listing(nodes, chain);
    var k, n := FirstGone(vars, id, 0), LastUses(vars, id, |chain|);
    DropAllCounts(vars, id, |chain|);
    LastUsesCount(vars, id, |chain|);
    if n == 0 { DropAllNone(vars, id, |chain|); }
    if n == 1 { DropAllOne(vars, id, |chain|); }
    ListedWithout(nodes, chain, id, nodes', chain');
  }

  lemma ListedWithout(nodes: seq<Node>, chain: seq<nat>, id: nat, nodes': seq<Node>, chain': seq<nat>)
    requires Linked(nodes, chain) && HasRows(Listing(nodes, chain), id) && Deleted(nodes, chain, id, nodes', chain')
    ensures Addresses(nodes', chain')
    ensures var vars := Listing(nodes, chain);
            Listing(nodes', chain') == WithoutAt(AllWithout(vars, id, |chain|), FirstGone(vars, id, 0))
  {
    var vars := Listing(nodes, chain);
    var k := FirstGone(vars, id, 0);
    var left := WithoutAt(AllWithout(vars, id, |chain|), k);
    hide HasRows, FirstGone;
    forall j: nat | j < |chain'|
      ensures Listing(nodes', chain')[j] == left[j]
    {
      KeptAt(nodes, chain, id, nodes', chain', j);
    }
  }

  lemma SetAppends(e: Env, n: nat, name: string, value: string, id: nat)
    requires Ok(e, n) && id < n && forall i :: 0 <= i < |e.vars| ==> e.vars[i].name != name
    ensures Set(Switched(e, id), n, name, value, id, true).vars == e.vars + [NewVar(n, name, value, id)]
  {
  }

  lemma TwoGo(p: Var, a: Var, b: Var, id: nat)
    requires id < |p.values| && id < |a.values| && id < |b.values| && p.userNum != 0
    requires !Goes(p, id) && Goes(a, id) && Goes(b, id)
    ensures HasRows([p, a, b], id) && LastUses([p, a, b], id, 3) == 2
  {
    assert LastUses([p, a, b], id, 1) == LastUses([p, a, b], id, 0) == 0;
    assert LastUses([p, a, b], id, 2) == 1;
  }

  /** One client with two variables of its own, which then leaves, is enough. */
  lemma TwoOwnVariables(n: nat, process: map<string, string>) returns (events: seq<Event>)
    requires n >= 2
    ensures Possible(n, events) && Inside(events) == {1}
    ensures var vars := After(n, process, events).vars;
            HasRows(vars, 1) && LastUses(vars, 1, |vars|) == 2
  {
    var in1 := [Login(1)];
    var withA := in1 + [Line(1, Assign("A", ""))];
    events := withA + [Line(1, Assign("B", ""))];
    var p := OneInside(n, process);
    assert withA[..1] == in1 && events[..2] == withA;
    var a, b := NewVar(n, "A", "", 1), NewVar(n, "B", "", 1);
    hide Ok, Set, Switched, NewVar;
    SetAppends(After(n, process, in1), n, "A", "", 1);
    assert After(n, process, withA).vars == [p, a];
    NewVarGoes(n, "A", "", 1);
    NewVarGoes(n, "B", "", 1);
    SetAppends(After(n, process, withA), n, "B", "", 1);
    assert After(n, process, events).vars == [p, a, b];
    TwoGo(p, a, b, 1);
  }

  lemma NewVarGoes(n: nat, name: string, value: string, id: nat)
    requires id < n
    ensures NewVar(n, name, value, id).name == name && id < |NewVar(n, name, value, id).values|
    ensures Goes(NewVar(n, name, value, id), id)
  {
  }

  lemma OneInside(n: nat, process: map<string, string>) returns (p: Var)
    requires n >= 2
    ensures Possible(n, [Login(1)]) && Inside([Login(1)]) == {1}
    ensures After(n, process, [Login(1)]).vars == [p] && p.name == PATH && p.userNum == -1 && |p.values| == n
  {
    var one := [Login(1)];
    assert one[..0] == [];
    assert Possible(n, []) && Inside([]) == {};
    assert After(n, process, []) == Booted(n, process);
    p := After(n, process, one).vars[0];
  }
}
