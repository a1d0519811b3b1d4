/**
  Environment variables of the clients of the single-process server: one table with a row
  per client, and one process environment that is switched lazily, only when the client
  served is not the one whose row was loaded last.
  */
module Environment {
  import opened Options

  /** values[id] is the client's value, if it has one; userNum is -1 for a variable that is never removed. */
  datatype Var = Var(name: string, values: seq<Option<string>>, userNum: int)

  /** The list of variables, what getenv sees, and env_id. */
  datatype Env = Env(vars: seq<Var>, process: map<string, string>, envId: nat)

  const PATH := "PATH"
  const PATH_VALUE := "bin:."

  // ---- What the operations do ----

  function Users(values: seq<Option<string>>): nat {
    if values == [] then 0 else Users(values[..|values| - 1]) + (if values[|values| - 1].Some? then 1 else 0)
  }

  /** What a client sees of a variable. */
  function Seen(v: Var, id: nat): string {
    if id < |v.values| && v.values[id].Some? then v.values[id].value else ""
  }

  function Booted(n: nat, process: map<string, string>): Env {
    Env([Var(PATH, seq(n, i => None), -1)], process, 0)
  }

  /** The position of a variable in the list, or its length. */
  function IndexOf(vars: seq<Var>, name: string): (k: nat)
    ensures k <= |vars| && (k < |vars| ==> vars[k].name == name) && forall i :: 0 <= i < k ==> vars[i].name != name
  {
    if vars == [] || vars[0].name == name then 0 else 1 + IndexOf(vars[1..], name)
  }

  function WithValue(v: Var, id: nat, value: string): Var
    requires id < |v.values|
  {
    v.(values := v.values[id := Some(value)],
       userNum := if v.values[id].None? && v.userNum >= 0 then v.userNum + 1 else v.userNum)
  }

  function NewVar(n: nat, name: string, value: string, id: nat): Var {
    Var(name, seq(n, i => if i == id then Some(value) else None), 1)
  }

  function SetVars(vars: seq<Var>, n: nat, name: string, value: string, id: nat): seq<Var>
    requires forall i :: 0 <= i < |vars| ==> id < |vars[i].values|
  {
    var k := IndexOf(vars, name);
    if k < |vars| then vars[k := WithValue(vars[k], id, value)] else vars + [NewVar(n, name, value, id)]
  }

  /** renew_env_var over the first k variables. */
  function Renewed(vars: seq<Var>, process: map<string, string>, id: nat, k: nat): map<string, string>
    requires k <= |vars|
  {
    if k == 0 then process else Renewed(vars, process, id, k - 1)[vars[k - 1].name := Seen(vars[k - 1], id)]
  }

  /** A variable without the value of client id, or nothing if that was its last user. */
  function Dropped(v: Var, id: nat): seq<Var>
    requires id < |v.values|
  {
    if v.values[id].None? then [v]
    else
      var num := if v.userNum >= 0 then v.userNum - 1 else v.userNum;
      if num == 0 then [] else [v.(values := v.values[id := None], userNum := num)]
  }

  function DropAll(vars: seq<Var>, id: nat, k: nat): seq<Var>
    requires k <= |vars| && forall i :: 0 <= i < |vars| ==> id < |vars[i].values|
  {
    if k == 0 then [] else DropAll(vars, id, k - 1) + Dropped(vars[k - 1], id)
  }

  // ---- The operations ----

  class EnvTable {
    const rows: nat
    var vars: seq<Var>
    var process: map<string, string>
    var envId: nat

    ghost function State(): Env
      reads this
    {
      Env(vars, process, envId)
    }

    ghost predicate Valid()
      reads this
    {
      Ok(State(), rows)
    }

    /** initial_env_var, in a process that starts with some environment. */
    constructor (n: nat, process: map<string, string>)
      ensures rows == n && State() == Booted(n, process) && Valid()
    {
      rows := n;
      vars := [Var(PATH, seq(n, i => None), -1)];
      this.process, envId := process, 0;
      new;
      assert vars[0].name == PATH;
    }

    /** set_env */
    method SetEnv(name: string, value: string, id: nat, overwrite: bool)
      requires Valid() && id < rows
      modifies this
      ensures State() == Set(old(State()), rows, name, value, id, overwrite) && Valid()
    {
      SetKeepsOk(State(), rows, name, value, id, overwrite);
      if overwrite || name !in process { process := process[name := value]; }
      var pos := 0;
      while pos < |vars|
        invariant 0 <= pos <= |vars| && IndexOf(vars, name) >= pos
      {
        if vars[pos].name == name {
          var v := vars[pos];
          if v.values[id].None? {
            v := v.(values := v.values[id := Some(value)]);
            if v.userNum >= 0 { v := v.(userNum := v.userNum + 1); }
          } else if v.values[id].value != value {
            v := v.(values := v.values[id := Some(value)]);
          }
          assert v == WithValue(vars[pos], id, value);
          vars := vars[pos := v];
          return;
        }
        pos := pos + 1;
      }
      vars := vars + [NewVar(rows, name, value, id)];
    }

    /** The switch before a client is served: np_single_proc.c:44-48, 153-164. */
    method Switch(id: nat)
      requires Valid() && id < rows
      modifies this
      ensures State() == Switched(old(State()), id) && Valid()
    {
      if id != envId {
        envId := id;
        ghost var before := process;
        var pos := 0;
        while pos < |vars|
          invariant vars == old(vars) && envId == id
          invariant 0 <= pos <= |vars| && process == Renewed(vars, before, id, pos)
        {
          process := process[vars[pos].name := if vars[pos].values[id].None? then "" else vars[pos].values[id].value];
          pos := pos + 1;
        }
      }
    }

    /** delete_env_var, as the filter it is meant to be; module EnvironmentList has the loop on pointers. */
    method DeleteEnvVar(id: nat)
      requires Valid() && id < rows
      modifies this
      ensures State() == Left(old(State()), id) && Valid()
    {
      LeftKeepsOk(State(), rows, id);
      var kept: seq<Var> := [];
      var pos := 0;
      while pos < |vars|
        invariant 0 <= pos <= |vars| && kept == DropAll(vars, id, pos)
      {
        var v := vars[pos];
        if v.values[id].Some? {
          v := v.(values := v.values[id := None]);
          if v.userNum >= 0 { v := v.(userNum := v.userNum - 1); }
          if v.userNum != 0 { kept := kept + [v]; }
        } else {
          kept := kept + [v];
        }
        pos := pos + 1;
      }
      vars := kept;
    }
  }

  function Set(e: Env, n: nat, name: string, value: string, id: nat, overwrite: bool): Env
    requires forall i :: 0 <= i < |e.vars| ==> id < |e.vars[i].values|
  {
    e.(process := if overwrite || name !in e.process then e.process[name := value] else e.process,
       vars := SetVars(e.vars, n, name, value, id))
  }

  function Switched(e: Env, id: nat): Env {
    if id == e.envId then e else e.(envId := id, process := Renewed(e.vars, e.process, id, |e.vars|))
  }

  // ---- The list is well kept ----

  /** Variables are listed once, PATH for good and the others while somebody has a value. */
  ghost predicate Ok(e: Env, n: nat) {
    ListOk(e.vars, n) && IsListed(PATH, e.vars)
  }

  predicate VarOk(v: Var, n: nat) {
    |v.values| == n && if v.name == PATH then v.userNum == -1 else v.userNum == Users(v.values) > 0
  }

  lemma {:induction false} UsersSet(values: seq<Option<string>>, id: nat, x: Option<string>)
    requires id < |values|
    ensures Users(values[id := x]) == Users(values) - (if values[id].Some? then 1 else 0) + (if x.Some? then 1 else 0)
  {
    var n := |values| - 1;
    if id == n {
      assert values[id := x][..n] == values[..n];
    } else {
      UsersSet(values[..n], id, x);
      assert values[id := x][..n] == values[..n][id := x];
    }
  }

  lemma {:induction false} NoUsers(values: seq<Option<string>>)
    ensures Users(values) == 0 <==> forall i :: 0 <= i < |values| ==> values[i].None?
  {
    if values != [] {
      NoUsers(values[..|values| - 1]);
      assert forall i :: 0 <= i < |values| - 1 ==> values[..|values| - 1][i] == values[i];
    }
  }

  lemma NewVarOk(n: nat, name: string, value: string, id: nat)
    requires id < n && name != PATH
    ensures VarOk(NewVar(n, name, value, id), n)
  {
    var none: seq<Option<string>> := seq(n, i => None);
    NoUsers(none);
    UsersSet(none, id, Some(value));
    assert NewVar(n, name, value, id).values == none[id := Some(value)];
  }

  lemma SetKeepsOk(e: Env, n: nat, name: string, value: string, id: nat, overwrite: bool)
    requires Ok(e, n) && id < n
    ensures Ok(Set(e, n, name, value, id, overwrite), n)
  {
    var k := IndexOf(e.vars, name);
    if k < |e.vars| {
      UsersSet(e.vars[k].values, id, Some(value));
      var i :| 0 <= i < |e.vars| && e.vars[i].name == PATH;
      assert Set(e, n, name, value, id, overwrite).vars[i].name == PATH;
    } else {
      var i :| 0 <= i < |e.vars| && e.vars[i].name == PATH;
      assert Set(e, n, name, value, id, overwrite).vars[i].name == PATH;
      NewVarOk(n, name, value, id);
    }
  }

  ghost predicate ListOk(vars: seq<Var>, n: nat) {
    && (forall i :: 0 <= i < |vars| ==> VarOk(vars[i], n))
    && (forall i, j :: 0 <= i < j < |vars| ==> vars[i].name != vars[j].name)
  }

  /** v is what is left of w without the value of client id. */
  predicate LeftOf(v: Var, w: Var, id: nat) {
    id < |w.values| && v.name == w.name && v.values == w.values[id := None]
  }

  /** The variable outlives client id: it is PATH, or somebody else has a value. */
  predicate Stays(w: Var, id: nat) {
    w.name == PATH || exists j :: 0 <= j < |w.values| && j != id && w.values[j].Some?
  }

  ghost predicate IsLeft(v: Var, vars: seq<Var>, k: nat, id: nat) {
    exists j :: 0 <= j < k <= |vars| && LeftOf(v, vars[j], id)
  }

  ghost predicate IsListed(name: string, vars: seq<Var>) {
    exists i :: 0 <= i < |vars| && vars[i].name == name
  }

  /** What dropping client id from the first k variables leaves. */
  ghost predicate KeptIs(kept: seq<Var>, vars: seq<Var>, k: nat, id: nat, n: nat) {
    && ListOk(kept, n) && k <= |vars|
    && (forall i :: 0 <= i < |kept| ==> IsLeft(kept[i], vars, k, id))
    && (forall j :: 0 <= j < k && Stays(vars[j], id) ==> IsListed(vars[j].name, kept))
  }

  lemma DroppedIs(w: Var, id: nat, n: nat)
    requires VarOk(w, n) && id < n
    ensures Dropped(w, id) == [] || (|Dropped(w, id)| == 1 && VarOk(Dropped(w, id)[0], n)
                                     && LeftOf(Dropped(w, id)[0], w, id))
    ensures Dropped(w, id) == [] <==> !Stays(w, id)
  {
    UsersSet(w.values, id, None);
    NoUsers(w.values[id := None]);
    NoUsers(w.values);
    if w.values[id].None? { assert w.values[id := None] == w.values; }
    if Stays(w, id) && w.name != PATH {
      var j :| 0 <= j < |w.values| && j != id && w.values[j].Some?;
      assert w.values[id := None][j].Some?;
    }
    if !Stays(w, id) {
      var rest := w.values[id := None];
      assert forall j :: 0 <= j < |rest| ==> rest[j].None?;
    }
  }

  lemma {:induction false} DropAllIs(vars: seq<Var>, id: nat, k: nat, n: nat)
    requires ListOk(vars, n) && k <= |vars| && id < n
    ensures KeptIs(DropAll(vars, id, k), vars, k, id, n)
  {
    if k > 0 {
      DropAllIs(vars, id, k - 1, n);
      DroppedIs(vars[k - 1], id, n);
      KeepOne(DropAll(vars, id, k - 1), Dropped(vars[k - 1], id), vars, k, id, n);
    }
  }

  lemma KeepOneListed(before: seq<Var>, d: seq<Var>, vars: seq<Var>, k: nat, id: nat, n: nat)
    requires 0 < k <= |vars| && KeptIs(before, vars, k - 1, id, n)
    requires d == [] <==> !Stays(vars[k - 1], id)
    requires d != [] ==> d[0].name == vars[k - 1].name
    ensures forall j :: 0 <= j < k && Stays(vars[j], id) ==> IsListed(vars[j].name, before + d)
  {
    var kept := before + d;
    hide ListOk, Stays;
    forall j | 0 <= j < k && Stays(vars[j], id)
      ensures IsListed(vars[j].name, kept)
    {
      if j < k - 1 {
        var i :| 0 <= i < |before| && before[i].name == vars[j].name;
        assert kept[i] == before[i];
      } else {
        assert kept[|before|] == d[0];
      }
    }
  }

  lemma {:induction false} KeepOne(before: seq<Var>, d: seq<Var>, vars: seq<Var>, k: nat, id: nat, n: nat)
    requires ListOk(vars, n) && 0 < k <= |vars| && KeptIs(before, vars, k - 1, id, n)
    requires d == [] || (|d| == 1 && VarOk(d[0], n) && LeftOf(d[0], vars[k - 1], id))
    requires d == [] <==> !Stays(vars[k - 1], id)
    ensures KeptIs(before + d, vars, k, id, n)
  {
    KeepOneListed(before, d, vars, k, id, n);
    assert d != [] ==> IsLeft(d[0], vars, k, id);
    forall i | 0 <= i < |before|
      ensures IsLeft(before[i], vars, k, id) && before[i].name != vars[k - 1].name
    {
    }
    assert d != [] ==> d[0].name == vars[k - 1].name;
    hide VarOk, Stays, IsLeft, LeftOf, IsListed;
    forall i | 0 <= i < |before + d|
      ensures IsLeft((before + d)[i], vars, k, id) && VarOk((before + d)[i], n)
    {
    }
  }

  function Left(e: Env, id: nat): Env
    requires forall i :: 0 <= i < |e.vars| ==> id < |e.vars[i].values|
  {
    e.(vars := DropAll(e.vars, id, |e.vars|))
  }

  lemma LeftKeepsOk(e: Env, n: nat, id: nat)
    requires Ok(e, n) && id < n
    ensures Ok(Left(e, id), n)
  {
    DropAllIs(e.vars, id, |e.vars|, n);
    var i :| 0 <= i < |e.vars| && e.vars[i].name == PATH;
    assert Stays(e.vars[i], id);
  }

  // ---- Runs ----

  datatype Command = Assign(name: string, value: string) | Leave | Other

  /** A login, which sets PATH for the new client, or a line of a client. */
  datatype Event = Login(id: nat) | Line(id: nat, command: Command)

  function Do(e: Env, n: nat, ev: Event): Env
    requires Ok(e, n) && ev.id < n
  {
    match ev
    case Login(id) => Set(e, n, PATH, PATH_VALUE, id, false)
    case Line(id, Assign(name, value)) => Set(Switched(e, id), n, name, value, id, true)
    case Line(id, Leave) => Left(Switched(e, id), id)
    case Line(id, Other) => Switched(e, id)
  }

  lemma DoKeepsOk(e: Env, n: nat, ev: Event)
    requires Ok(e, n) && ev.id < n
    ensures Ok(Do(e, n, ev), n)
  {
    match ev
    case Login(id) => SetKeepsOk(e, n, PATH, PATH_VALUE, id, false);
    case Line(id, Assign(name, value)) => SetKeepsOk(Switched(e, id), n, name, value, id, true);
    case Line(id, Leave) => LeftKeepsOk(Switched(e, id), n, id);
    case Line(id, Other) =>
  }

  /** The clients that are logged in. */
  function Inside(events: seq<Event>): set<nat> {
    if events == [] then {}
    else
      match events[|events| - 1]
      case Login(id) => Inside(events[..|events| - 1]) + {id}
      case Line(id, Leave) => Inside(events[..|events| - 1]) - {id}
      case _ => Inside(events[..|events| - 1])
  }

  /** Ids are given out when they are free, and lines come from clients that are logged in. */
  predicate Possible(n: nat, events: seq<Event>) {
    events == [] || (
      var before, last := events[..|events| - 1], events[|events| - 1];
      && Possible(n, before)
      && 1 <= last.id < n
      && (if last.Login? then last.id !in Inside(before) else last.id in Inside(before)))
  }

  function After(n: nat, process: map<string, string>, events: seq<Event>): (e: Env)
    requires Possible(n, events)
    ensures Ok(e, n)
  {
    if events == [] then
      assert Booted(n, process).vars[0].name == PATH;
      Booted(n, process)
    else
      var e := After(n, process, events[..|events| - 1]);
      DoKeepsOk(e, n, events[|events| - 1]);
      Do(e, n, events[|events| - 1])
  }

  /** The client served last, or 0. */
  function LastServed(events: seq<Event>): nat {
    if events == [] then 0
    else if events[|events| - 1].Line? then events[|events| - 1].id
    else LastServed(events[..|events| - 1])
  }

  /** The client served last has left since, or nobody was served yet. */
  predicate Departed(events: seq<Event>) {
    events == [] || (
      var before, last := events[..|events| - 1], events[|events| - 1];
      match last
      case Login(_) => Departed(before)
      case Line(id, command) => command.Leave? || (Departed(before) && id == LastServed(before)))
  }

  lemma {:induction false} LoadedIsLastServed(n: nat, process: map<string, string>, events: seq<Event>)
    requires Possible(n, events)
    ensures After(n, process, events).envId == LastServed(events)
    ensures !Departed(events) ==> LastServed(events) in Inside(events)
  {
    if events != [] { LoadedIsLastServed(n, process, events[..|events| - 1]); }
  }

  // ---- Lazy switching ----

  /** Every listed variable has in the process the value of the client whose id is loaded. */
  ghost predicate Fresh(e: Env) {
    forall i :: 0 <= i < |e.vars| ==> Agrees(e, e.vars[i])
  }

  predicate Agrees(e: Env, v: Var) {
    v.name in e.process && e.process[v.name] == Seen(v, e.envId)
  }

  lemma {:induction false} RenewedIs(vars: seq<Var>, process: map<string, string>, id: nat, k: nat, n: nat)
    requires ListOk(vars, n) && k <= |vars|
    ensures forall i :: 0 <= i < k ==> vars[i].name in Renewed(vars, process, id, k)
                                       && Renewed(vars, process, id, k)[vars[i].name] == Seen(vars[i], id)
    ensures forall name :: !IsListed(name, vars) ==>
              (name in Renewed(vars, process, id, k) <==> name in process)
              && (name in process ==> Renewed(vars, process, id, k)[name] == process[name])
  {
    if k > 0 {
      RenewedIs(vars, process, id, k - 1, n);
      assert IsListed(vars[k - 1].name, vars);
    }
  }

  lemma SwitchedIsFresh(e: Env, n: nat, id: nat)
    requires Ok(e, n) && (Fresh(e) || id != e.envId)
    ensures Fresh(Switched(e, id))
  {
    RenewedIs(e.vars, e.process, id, |e.vars|, n);
  }

  lemma AssignKeepsFresh(e: Env, n: nat, name: string, value: string, id: nat)
    requires Ok(e, n) && Fresh(e) && id == e.envId < n
    ensures Fresh(Set(e, n, name, value, id, true))
  {
    var e' := Set(e, n, name, value, id, true);
    forall i | 0 <= i < |e'.vars|
      ensures Agrees(e', e'.vars[i])
    {
      if i < |e.vars| { assert Agrees(e, e.vars[i]); }
    }
  }

  /** The login of another client does not touch what is loaded. */
  lemma LoginKeepsFresh(e: Env, n: nat, id: nat)
    requires Ok(e, n) && Fresh(e) && id != e.envId && id < n
    ensures Fresh(Set(e, n, PATH, PATH_VALUE, id, false))
  {
    var e' := Set(e, n, PATH, PATH_VALUE, id, false);
    var p :| 0 <= p < |e.vars| && e.vars[p].name == PATH;
    assert Agrees(e, e.vars[p]);
    forall i | 0 <= i < |e'.vars|
      ensures Agrees(e', e'.vars[i])
    {
      assert Agrees(e, e.vars[i]);
    }
  }

  lemma {:induction false} FreshUnlessDeparted(n: nat, process: map<string, string>, events: seq<Event>)
    requires Possible(n, events) && !Departed(events)
    ensures Fresh(After(n, process, events))
  {
    var before, last := events[..|events| - 1], events[|events| - 1];
    var e := After(n, process, before);
    LoadedIsLastServed(n, process, before);
    if !Departed(before) { FreshUnlessDeparted(n, process, before); }
    match last
    case Login(id) => LoginKeepsFresh(e, n, id);
    case Line(id, Assign(name, value)) =>
      SwitchedIsFresh(e, n, id);
      AssignKeepsFresh(Switched(e, id), n, name, value, id);
    case Line(id, Other) => SwitchedIsFresh(e, n, id);
    case Line(id, Leave) =>
  }

  /**
    Lazy switching is as good as switching before every line: in every run, each command
    sees for every listed variable its own client's value, or nothing. The only exception
    is a client that was given the id of the client served last, who has left.
    */
  lemma LazyIsEager(n: nat, process: map<string, string>, events: seq<Event>, id: nat)
    requires Possible(n, events) && id in Inside(events)
    requires !(Departed(events) && id == LastServed(events))
    ensures var e := After(n, process, events);
            var lazy, eager := Switched(e, id), Renewed(e.vars, e.process, id, |e.vars|);
            forall i :: 0 <= i < |e.vars| ==>
              var name := e.vars[i].name;
              && name in lazy.process && lazy.process[name] == Seen(e.vars[i], id)
              && name in eager && eager[name] == lazy.process[name]
  {
    var e := After(n, process, events);
    LoadedIsLastServed(n, process, events);
    if !Departed(events) { FreshUnlessDeparted(n, process, events); }
    SwitchedIsFresh(e, n, id);
    RenewedIs(e.vars, e.process, id, |e.vars|, n);
    assert forall i :: 0 <= i < |e.vars| ==> Agrees(Switched(e, id), e.vars[i]);
  }

  // ---- The exception ----

  /** What a client sees of a variable right after its login. */
  function AtLogin(name: string): string {
    if name == PATH then PATH_VALUE else ""
  }

  /** What getenv gave the client served last when it left. */
  function LeaverSaw(n: nat, process: map<string, string>, events: seq<Event>): map<string, string>
    requires Possible(n, events) && Departed(events) && LastServed(events) != 0
  {
    var before, last := events[..|events| - 1], events[|events| - 1];
    if last.Line? && last.command.Leave? then Switched(After(n, process, before), last.id).process
    else LeaverSaw(n, process, before)
  }

  /** The variables set since the client served last left. */
  function SetSince(events: seq<Event>): set<string>
    requires Departed(events) && LastServed(events) != 0
  {
    var before, last := events[..|events| - 1], events[|events| - 1];
    match last
    case Line(_, Leave) => {}
    case Line(_, Assign(name, _)) => SetSince(before) + {name}
    case _ => SetSince(before)
  }

  /** Every listed variable is in the process environment. */
  predicate ListedAreSet(e: Env) {
    forall i :: 0 <= i < |e.vars| ==> e.vars[i].name in e.process
  }

  lemma SwitchSets(e: Env, n: nat, id: nat)
    requires Ok(e, n) && (ListedAreSet(e) || id != e.envId)
    ensures ListedAreSet(Switched(e, id))
  {
    RenewedIs(e.vars, e.process, id, |e.vars|, n);
  }

  lemma LeaveKeepsSet(e: Env, n: nat, id: nat)
    requires Ok(e, n) && ListedAreSet(e) && id < n
    ensures ListedAreSet(Left(e, id))
  {
    DropAllIs(e.vars, id, |e.vars|, n);
    var left := Left(e, id);
    forall i | 0 <= i < |left.vars|
      ensures left.vars[i].name in e.process
    {
      assert IsLeft(left.vars[i], e.vars, |e.vars|, id);
      var j :| 0 <= j < |e.vars| && LeftOf(left.vars[i], e.vars[j], id);
    }
  }

  /** Once somebody was served, every listed variable is in the process environment. */
  lemma {:induction false} ServedSets(n: nat, process: map<string, string>, events: seq<Event>)
    requires Possible(n, events) && LastServed(events) != 0
    ensures ListedAreSet(After(n, process, events))
  {
    var before, last := events[..|events| - 1], events[|events| - 1];
    var e := After(n, process, before);
    LoadedIsLastServed(n, process, before);
    if LastServed(before) != 0 { ServedSets(n, process, before); }
    if last.Line? { SwitchSets(e, n, last.id); }
    match last
    case Line(id, Leave) => LeaveKeepsSet(Switched(e, id), n, id);
    case _ =>
  }

  /**
    Since the client served last left, its id `id` has the variables of a newcomer, except
    those it set itself; those that nobody set are in the process as the leaver saw them.
    */
  ghost predicate Inherits(e: Env, saw: map<string, string>, id: nat, inside: bool, set': set<string>) {
    && (!inside ==> set' == {})
    && forall i :: 0 <= i < |e.vars| ==> VarInherits(e.process, e.vars[i], saw, id, inside, set')
  }

  predicate VarInherits(process: map<string, string>, v: Var, saw: map<string, string>, id: nat, inside: bool,
                        set': set<string>) {
    && v.name in process && id < |v.values|
    && if v.name in set' then process[v.name] == Seen(v, id)
       else
         && v.name in saw && process[v.name] == saw[v.name]
         && if inside then Seen(v, id) == AtLogin(v.name) else v.values[id].None?
  }

  lemma LeaveInherits(e: Env, n: nat, id: nat)
    requires Ok(e, n) && ListedAreSet(e) && id < n
    ensures Inherits(Left(e, id), e.process, id, false, {})
  {
    DropAllIs(e.vars, id, |e.vars|, n);
    var left := Left(e, id);
    forall i | 0 <= i < |left.vars|
      ensures VarInherits(left.process, left.vars[i], e.process, id, false, {})
    {
      assert IsLeft(left.vars[i], e.vars, |e.vars|, id);
      var j :| 0 <= j < |e.vars| && LeftOf(left.vars[i], e.vars[j], id);
    }
  }

  /** A login adds nothing to the list, since PATH is always in it. */
  lemma LoginInherits(e: Env, n: nat, who: nat, saw: map<string, string>, id: nat, inside: bool, set': set<string>)
    requires Ok(e, n) && Inherits(e, saw, id, inside, set') && who < n && id < n && (who == id ==> !inside)
    ensures Inherits(Set(e, n, PATH, PATH_VALUE, who, false), saw, id, inside || who == id, set')
  {
    var e' := Set(e, n, PATH, PATH_VALUE, who, false);
    var k := IndexOf(e.vars, PATH);
    assert k < |e.vars|;
    assert VarInherits(e.process, e.vars[k], saw, id, inside, set');
    forall i | 0 <= i < |e'.vars|
      ensures VarInherits(e'.process, e'.vars[i], saw, id, inside || who == id, set')
    {
      assert VarInherits(e.process, e.vars[i], saw, id, inside, set');
    }
  }

  lemma AssignInherits(e: Env, n: nat, name: string, value: string, saw: map<string, string>, id: nat,
                       set': set<string>)
    requires Ok(e, n) && Inherits(e, saw, id, true, set') && id < n
    ensures Inherits(Set(e, n, name, value, id, true), saw, id, true, set' + {name})
  {
    var e' := Set(e, n, name, value, id, true);
    forall i | 0 <= i < |e'.vars|
      ensures VarInherits(e'.process, e'.vars[i], saw, id, true, set' + {name})
    {
      if i < |e.vars| { assert VarInherits(e.process, e.vars[i], saw, id, true, set'); }
    }
  }

  lemma {:induction false} SinceLeave(n: nat, process: map<string, string>, events: seq<Event>)
    requires Possible(n, events) && Departed(events) && LastServed(events) != 0
    ensures var id := LastServed(events);
            Inherits(After(n, process, events), LeaverSaw(n, process, events), id, id in Inside(events),
                     SetSince(events))
  {
    var before, last := events[..|events| - 1], events[|events| - 1];
    var e := After(n, process, before);
    LoadedIsLastServed(n, process, before);
    if last.Line? && last.command.Leave? {
      if LastServed(before) != 0 { ServedSets(n, process, before); }
      SwitchSets(e, n, last.id);
      LeaveInherits(Switched(e, last.id), n, last.id);
    } else {
      SinceLeave(n, process, before);
      var id, saw, set' := LastServed(before), LeaverSaw(n, process, before), SetSince(before);
      ServedIsId(n, before);
      match last
      case Login(who) => LoginInherits(e, n, who, saw, id, id in Inside(before), set');
      case Line(_, Assign(name, value)) => AssignInherits(e, n, name, value, saw, id, set');
      case Line(_, Other) =>
    }
    hide Inherits, Ok;
  }

  lemma {:induction false} ServedIsId(n: nat, events: seq<Event>)
    requires Possible(n, events) && LastServed(events) != 0
    ensures LastServed(events) < n
  {
    if events[|events| - 1].Login? { ServedIsId(n, events[..|events| - 1]); }
  }

  /**
    The exception of LazyIsEager, exactly. The client served last has left, and its id was
    given out again, with any logins of other clients in between. Its new owner sees its own
    value of a listed variable if and only if it has set the variable itself, or the leaver
    saw what a newcomer sees. So it sees all its own values if and only if this holds for
    every variable that is still listed.
    */
  lemma ReissuedIdSeesOwnExactlyWhen(n: nat, process: map<string, string>, events: seq<Event>, id: nat)
    requires Possible(n, events) && Departed(events) && id == LastServed(events) && id in Inside(events)
    ensures id != 0 && Switched(After(n, process, events), id) == After(n, process, events)
    ensures var e, saw := After(n, process, events), LeaverSaw(n, process, events);
            && (forall i :: 0 <= i < |e.vars| ==> (Agrees(e, e.vars[i]) <==> MeansOwn(saw, events, e.vars[i].name)))
            && (Fresh(Switched(e, id)) <==> forall i :: 0 <= i < |e.vars| ==> MeansOwn(saw, events, e.vars[i].name))
  {
    InsideIsId(n, events, id);
    LoadedIsLastServed(n, process, events);
    SinceLeave(n, process, events);
    var e, saw := After(n, process, events), LeaverSaw(n, process, events);
    forall i | 0 <= i < |e.vars|
      ensures Agrees(e, e.vars[i]) <==> MeansOwn(saw, events, e.vars[i].name)
    {
      assert VarInherits(e.process, e.vars[i], saw, id, true, SetSince(events));
    }
  }

  /** The variable was set since the leaver left, or the leaver saw what a newcomer sees. */
  predicate MeansOwn(saw: map<string, string>, events: seq<Event>, name: string)
    requires Departed(events) && LastServed(events) != 0
  {
    name in SetSince(events) || (name in saw && saw[name] == AtLogin(name))
  }

  lemma {:induction false} InsideIsId(n: nat, events: seq<Event>, id: nat)
    requires Possible(n, events) && id in Inside(events)
    ensures 1 <= id < n
  {
    if events != [] && id in Inside(events[..|events| - 1]) { InsideIsId(n, events[..|events| - 1], id); }
  }

  // ---- What a client sees, told from the history ----

  /** What client id set the variable to last since its login, at which it has PATH only. */
  function LastSet(events: seq<Event>, id: nat, name: string): string {
    if events == [] then ""
    else
      var before, last := events[..|events| - 1], events[|events| - 1];
      if last.id != id then LastSet(before, id, name)
      else
        match last
        case Login(_) => AtLogin(name)
        case Line(_, Assign(other, value)) => if other == name then value else LastSet(before, id, name)
        case Line(_, Leave) => ""
        case Line(_, Other) => LastSet(before, id, name)
  }

  /** The client's value in the table. */
  function ValueOf(vars: seq<Var>, id: nat, name: string): string {
    var k := IndexOf(vars, name);
    if k < |vars| then Seen(vars[k], id) else ""
  }

  lemma IndexIs(vars: seq<Var>, n: nat, k: nat)
    requires ListOk(vars, n) && k < |vars|
    ensures IndexOf(vars, vars[k].name) == k
  {
  }

  lemma SetSeen(vars: seq<Var>, n: nat, other: string, value: string, who: nat, id: nat)
    requires ListOk(vars, n) && who < n
    ensures var w, k := SetVars(vars, n, other, value, who), IndexOf(vars, other);
            && |vars| <= |w| && k < |w| <= |vars| + 1 && (k < |vars| ==> |w| == |vars|)
            && w[k].name == other && Seen(w[k], who) == value
            && (k == |vars| && who != id ==> Seen(w[k], id) == "")
            && forall i :: 0 <= i < |vars| ==>
                 w[i].name == vars[i].name && (i != k || who != id ==> Seen(w[i], id) == Seen(vars[i], id))
  {
    hide Users;
  }

  lemma SetValue(e: Env, n: nat, other: string, value: string, who: nat, overwrite: bool, id: nat, name: string)
    requires Ok(e, n) && who < n
    ensures ValueOf(Set(e, n, other, value, who, overwrite).vars, id, name)
            == if who == id && other == name then value else ValueOf(e.vars, id, name)
  {
    var w := SetVars(e.vars, n, other, value, who);
    SetKeepsOk(e, n, other, value, who, overwrite);
    assert ListOk(w, n);
    SetSeen(e.vars, n, other, value, who, id);
    hide VarOk, SetVars, Seen;
    var k, m := IndexOf(e.vars, other), IndexOf(e.vars, name);
    IndexIs(w, n, k);
    if m < |e.vars| { IndexIs(w, n, m); }
  }

  lemma LeftValue(e: Env, n: nat, who: nat, id: nat, name: string)
    requires Ok(e, n) && who < n
    ensures ValueOf(Left(e, who).vars, id, name) == if who == id then "" else ValueOf(e.vars, id, name)
  {
    hide Users;
    LeftKeepsOk(e, n, who);
    DropAllIs(e.vars, who, |e.vars|, n);
    var left := Left(e, who);
    var k := IndexOf(left.vars, name);
    if k < |left.vars| {
      assert IsLeft(left.vars[k], e.vars, |e.vars|, who);
    }
  }

  lemma {:induction false} OutsideHasNone(n: nat, events: seq<Event>, id: nat, name: string)
    requires Possible(n, events) && id !in Inside(events)
    ensures LastSet(events, id, name) == ""
  {
    if events != [] && id !in Inside(events[..|events| - 1]) { OutsideHasNone(n, events[..|events| - 1], id, name); }
  }

  /** In every run the table has for every client what it set last. */
  lemma {:induction false} TableIsHistory(n: nat, process: map<string, string>, events: seq<Event>, id: nat,
                                          name: string)
    requires Possible(n, events)
    ensures ValueOf(After(n, process, events).vars, id, name) == LastSet(events, id, name)
  {
    if events != [] {
      var before, last := events[..|events| - 1], events[|events| - 1];
      var e := After(n, process, before);
      TableIsHistory(n, process, before, id, name);
      match last
      case Login(who) =>
        if who == id { OutsideHasNone(n, before, id, name); }
        SetValue(e, n, PATH, PATH_VALUE, who, false, id, name);
      case Line(who, Assign(other, value)) => SetValue(Switched(e, who), n, other, value, who, true, id, name);
      case Line(who, Leave) => LeftValue(Switched(e, who), n, who, id, name);
      case Line(who, Other) =>
    }
  }

  /**
    What a command sees, told from the history alone: in every run, outside the exception above,
    each variable that its client has set, to what it set it last, and PATH as it is at login
    until then; every other listed variable is empty for it.
    */
  lemma SeesLastSet(n: nat, process: map<string, string>, events: seq<Event>, id: nat, name: string)
    requires Possible(n, events) && id in Inside(events)
    requires !(Departed(events) && id == LastServed(events))
    requires IsListed(name, After(n, process, events).vars) || LastSet(events, id, name) != ""
    ensures var seen := Switched(After(n, process, events), id).process;
            name in seen && seen[name] == LastSet(events, id, name)
  {
    TableIsHistory(n, process, events, id, name);
    LazyIsEager(n, process, events, id);
    var e := After(n, process, events);
    var k := IndexOf(e.vars, name);
    assert k < |e.vars| && e.vars[k].name == name;
  }

  // ---- Variables whose last user left ----

  /** A variable that is still listed had another user, or is PATH. */
  lemma LeftStays(v: Var, w: Var, id: nat, n: nat)
    requires VarOk(v, n) && LeftOf(v, w, id)
    ensures Stays(w, id)
  {
    if v.name != PATH {
      NoUsers(v.values);
      var j :| 0 <= j < |v.values| && v.values[j].Some?;
      assert w.values[j] == v.values[j];
    }
  }

  /** A leaver takes a variable off the list exactly when nobody else uses it and it is not PATH. */
  lemma DroppedExactly(e: Env, n: nat, id: nat, j: nat)
    requires Ok(e, n) && id < n && j < |e.vars|
    ensures !Stays(e.vars[j], id) <==> !IsListed(e.vars[j].name, Left(e, id).vars)
  {
    LeftKeepsOk(e, n, id);
    DropAllIs(e.vars, id, |e.vars|, n);
    var left := Left(e, id);
    if i :| 0 <= i < |left.vars| && left.vars[i].name == e.vars[j].name {
      assert IsLeft(left.vars[i], e.vars, |e.vars|, id);
      var m :| 0 <= m < |e.vars| && LeftOf(left.vars[i], e.vars[m], id);
      assert m == j;
      LeftStays(left.vars[i], e.vars[j], id, n);
    }
  }

  /** The variable is not listed, and the process has it with this value. */
  ghost predicate Orphan(e: Env, name: string, value: string) {
    !IsListed(name, e.vars) && name in e.process && e.process[name] == value
  }

  predicate SetsVar(ev: Event, name: string) {
    ev.Line? && ev.command.Assign? && ev.command.name == name
  }

  lemma SwitchKeepsOrphan(e: Env, n: nat, id: nat, name: string, value: string)
    requires Ok(e, n) && Orphan(e, name, value)
    ensures Orphan(Switched(e, id), name, value)
  {
    RenewedIs(e.vars, e.process, id, |e.vars|, n);
  }

  lemma SetKeepsOrphan(e: Env, n: nat, other: string, x: string, id: nat, overwrite: bool, name: string, value: string)
    requires Ok(e, n) && Orphan(e, name, value) && id < n && other != name
    ensures Orphan(Set(e, n, other, x, id, overwrite), name, value)
  {
    var e' := Set(e, n, other, x, id, overwrite);
    forall i | 0 <= i < |e'.vars|
      ensures e'.vars[i].name != name
    {
      if i < |e.vars| { assert e'.vars[i].name == e.vars[i].name; }
    }
  }

  lemma LeaveKeepsOrphan(e: Env, n: nat, id: nat, name: string, value: string)
    requires Ok(e, n) && Orphan(e, name, value) && id < n
    ensures Orphan(Left(e, id), name, value)
  {
    DropAllIs(e.vars, id, |e.vars|, n);
    var left := Left(e, id);
    forall i | 0 <= i < |left.vars|
      ensures left.vars[i].name != name
    {
      assert IsLeft(left.vars[i], e.vars, |e.vars|, id);
    }
  }

  lemma DoKeepsOrphan(e: Env, n: nat, ev: Event, name: string, value: string)
    requires Ok(e, n) && Orphan(e, name, value) && ev.id < n && !SetsVar(ev, name)
    ensures Orphan(Do(e, n, ev), name, value)
  {
    if ev.Line? { SwitchKeepsOrphan(e, n, ev.id, name, value); }
    match ev
    case Login(id) => SetKeepsOrphan(e, n, PATH, PATH_VALUE, id, false, name, value);
    case Line(id, Assign(other, x)) => SetKeepsOrphan(Switched(e, id), n, other, x, id, true, name, value);
    case Line(id, Leave) => LeaveKeepsOrphan(Switched(e, id), n, id, name, value);
    case Line(id, Other) =>
  }

  lemma {:induction false} OrphanStays(n: nat, process: map<string, string>, events: seq<Event>, more: seq<Event>,
                                       name: string, value: string)
    requires Possible(n, events) && Possible(n, events + more) && Orphan(After(n, process, events), name, value)
    requires forall i :: 0 <= i < |more| ==> !SetsVar(more[i], name)
    ensures Orphan(After(n, process, events + more), name, value)
  {
    if more == [] {
      assert events + more == events;
    } else {
      var run, rest := events + more, more[..|more| - 1];
      assert run[..|run| - 1] == events + rest && run[|run| - 1] == more[|more| - 1];
      OrphanStays(n, process, events, rest, name, value);
      DoKeepsOrphan(After(n, process, events + rest), n, more[|more| - 1], name, value);
    }
  }

  /**
    A variable whose last user leaves is taken off the list, so no later switch touches it:
    whatever happens afterwards, as long as nobody sets it again, every client is served with
    the value that the leaver had.
    */
  lemma LeaversValueStays(n: nat, process: map<string, string>, before: seq<Event>, id: nat, more: seq<Event>,
                          j: nat, other: nat)
    requires Possible(n, before) && Possible(n, before + [Line(id, Leave)] + more)
    requires j < |After(n, process, before).vars| && !Stays(After(n, process, before).vars[j], id)
    requires forall i :: 0 <= i < |more| ==> !SetsVar(more[i], After(n, process, before).vars[j].name)
    ensures var name := After(n, process, before).vars[j].name;
            var saw := Switched(After(n, process, before), id).process;
            var e := After(n, process, before + [Line(id, Leave)] + more);
            && name in saw && !IsListed(name, e.vars)
            && name in Switched(e, other).process && Switched(e, other).process[name] == saw[name]
  {
    var e0 := After(n, process, before);
    var name := e0.vars[j].name;
    var leave := before + [Line(id, Leave)];
    PossiblePrefix(n, leave, more);
    assert leave[..|leave| - 1] == before && leave[|leave| - 1] == Line(id, Leave);
    LoadedIsLastServed(n, process, before);
    InsideIsId(n, before, id);
    if LastServed(before) != 0 { ServedSets(n, process, before); }
    SwitchSets(e0, n, id);
    DroppedExactly(Switched(e0, id), n, id, j);
    var value := Switched(e0, id).process[name];
    OrphanStays(n, process, leave, more, name, value);
    SwitchKeepsOrphan(After(n, process, leave + more), n, other, name, value);
  }

  lemma {:induction false} PossiblePrefix(n: nat, events: seq<Event>, more: seq<Event>)
    requires Possible(n, events + more)
    ensures Possible(n, events)
  {
    if more == [] {
      assert events + more == events;
    } else {
      assert (events + more)[..|events + more| - 1] == events + more[..|more| - 1];
      PossiblePrefix(n, events, more[..|more| - 1]);
    }
  }
}
