/**
 The resumable run of migration 081. Every durable write of an attempt is
 recorded, so a crash is a prefix of the writes. Around the checkpoint protocol
 the SQL itself is arbitrary: any statement may change the tables in any way
 and may fail.
 */
module EolResume {
  import opened Text
  import opened EolRetained
  import opened EolStatements
  import SqlSplitter

  /** The checkpoint table: absent, created and empty, or holding its one digest. */
  datatype Mark = Absent | Empty | Holds(digest: string)

  datatype State = State(tables: Tables, mark: Mark)

  /** The durable states after each write, and whether the code went on. */
  datatype Ran = Ran(writes: seq<State>, ok: bool)

  /** The successive table contents of a step outside the checkpoint, and whether it succeeded. */
  datatype Effect = Effect(states: seq<Tables>, ok: bool)

  /** Everything the runner calls: the archive mapping, the source snapshots, the gates, SQL and validation. */
  datatype World = World(
    hasher: Hasher,
    names: seq<string>,
    mapping: Tables -> Effect,
    sources: Tables -> Effect,
    gate: Tables -> bool,
    exec: (Tables, string) -> Effect,
    valid: Tables -> bool,
    schema: Tables -> bool)

  // ------------------------------------------------------------- runs of writes

  /** The state after k writes. */
  function At(s: State, writes: seq<State>, k: nat): State
    requires k <= |writes|
  {
    if k == 0 then s else writes[k - 1]
  }

  function End(s: State, r: Ran): State {
    At(s, r.writes, |r.writes|)
  }

  function Then(s: State, a: Ran, next: State -> Ran): Ran {
    if !a.ok then a
    else
      var b := next(End(s, a));
      Ran(a.writes + b.writes, b.ok)
  }

  function Only(ok: bool): Ran {
    Ran([], ok)
  }

  function Written(s: State, e: Effect): (r: Ran)
    ensures |r.writes| == |e.states|
    ensures forall i | 0 <= i < |r.writes| :: r.writes[i] == State(e.states[i], s.mark)
  {
    Ran(seq(|e.states|, i requires 0 <= i < |e.states| => State(e.states[i], s.mark)), e.ok)
  }

  // ------------------------------------------------------------ the checkpoint

  function Print(w: World, tables: Tables): Option<string> {
    Fingerprint(w.hasher, w.names, tables)
  }

  /** The checkpoint call that may not create: without a table it passes, else the digest must be the recorded one. */
  function Look(w: World, s: State): Ran {
    if s.mark.Absent? then Only(true)
    else Only(Print(w, s.tables).Some? && s.mark == Holds(Print(w, s.tables).value))
  }

  /** The checkpoint call that creates: create the table, insert unless a row is there, compare. */
  function Record(w: World, s: State): Ran {
    match Print(w, s.tables)
    case None => Only(false)
    case Some(d) =>
      var created := s.(mark := if s.mark.Absent? then Empty else s.mark);
      var inserted := s.(mark := if created.mark.Empty? then Holds(d) else created.mark);
      Ran([created, inserted], inserted.mark == Holds(d))
  }

  // ---------------------------------------------------------------- one attempt

  predicate NonePresent(tables: Tables, name: string) {
    name in tables ==> forall c | c in Legacy(name) :: c !in tables[name].columns
  }

  predicate AllPresent(tables: Tables, name: string) {
    name in tables && forall c | c in Legacy(name) :: c in tables[name].columns
  }

  /** Neither all nor none of the Discord columns are there. */
  predicate Partial(tables: Tables) {
    !NonePresent(tables, "stream_settings") && !AllPresent(tables, "stream_settings")
  }

  predicate LegacyGone(tables: Tables) {
    NonePresent(tables, "stream_settings") && NonePresent(tables, "system_update_execution_hosts")
  }

  function Statement(w: World, p: Plan, s: State): Ran {
    if p.Skip? then Only(true)
    else if p.gated && !w.gate(s.tables) then Only(false)
    else
      Then(s, if p.guarded then Record(w, s) else Only(true),
           (t: State) => Written(t, w.exec(t.tables, p.text)))
  }

  function Body(w: World, plans: seq<Plan>, s: State): Ran {
    if plans == [] then Only(true)
    else
      var n := |plans| - 1;
      Then(s, Body(w, plans[..n], s), (t: State) => Statement(w, plans[n], t))
  }

  function Sources(w: World, s: State): Ran {
    if Partial(s.tables) then Only(false) else Written(s, w.sources(s.tables))
  }

  function Prepared(w: World, s: State): Ran {
    Then(s, Written(s, w.mapping(s.tables)), (t: State) => Sources(w, t))
  }

  /** What comes before the statements. */
  function Setup(w: World, s: State): Ran {
    if !Look(w, s).ok then Only(false) else Prepared(w, s)
  }

  /** What comes after them. */
  function Final(w: World, s: State): Ran {
    if !w.valid(s.tables) then Only(false)
    else Only(Look(w, s).ok && LegacyGone(s.tables) && w.schema(s.tables))
  }

  function Attempt(w: World, plans: seq<Plan>, s: State): Ran {
    Then(s, Then(s, Setup(w, s), (t: State) => Body(w, plans, t)), t => Final(w, t))
  }

  function Plans(statements: seq<string>): (r: seq<Plan>)
    ensures |r| == |statements|
    ensures forall i | 0 <= i < |r| :: r[i] == PlanOf(statements[i])
  {
    seq(|statements|, i requires 0 <= i < |statements| => PlanOf(statements[i]))
  }

  // ------------------------------------------------------------ the runner itself

  lemma {:induction false} BodyStops(w: World, plans: seq<Plan>, n: nat, s: State)
    requires n <= |plans| && !Body(w, plans[..n], s).ok
    ensures Body(w, plans, s) == Body(w, plans[..n], s)
    decreases |plans|
  {
    if n == |plans| {
      assert plans[..n] == plans;
    } else {
      var m := |plans| - 1;
      assert plans[..m][..n] == plans[..n];
      BodyStops(w, plans[..m], n, s);
    }
  }

  lemma BodyNext(w: World, plans: seq<Plan>, i: nat, s: State, at: State)
    requires i < |plans| && Body(w, plans[..i], s).ok && at == End(s, Body(w, plans[..i], s))
    ensures var r := Statement(w, plans[i], at);
            Body(w, plans[..i + 1], s) == Ran(Body(w, plans[..i], s).writes + r.writes, r.ok)
  {
    assert plans[..i + 1][..i] == plans[..i];
  }

  /** Logging two steps one after the other logs their composition. */
  lemma ThenLogs(s: State, a: Ran, log: seq<State>, log1: seq<State>, s1: State, b: Ran, s2: State, log2: seq<State>)
    requires log1 == log + a.writes && s1 == End(s, a)
    requires log2 == log1 + b.writes && s2 == End(s1, b)
    ensures var r := Ran(a.writes + b.writes, b.ok); log2 == log + r.writes && s2 == End(s, r)
  {
  }

  lemma AttemptParts(w: World, plans: seq<Plan>, s: State)
    ensures var a := Setup(w, s);
            var t := End(s, a);
            var b := Body(w, plans, t);
            var ab := Ran(a.writes + b.writes, b.ok);
            var c := Final(w, End(s, ab));
            Attempt(w, plans, s) == if !a.ok then a else if !b.ok then ab else Ran(ab.writes + c.writes, c.ok)
  {
  }

  method MakePlan(original: string) returns (p: Plan)
    ensures p == PlanOf(original)
  {
    var stmt := TrimMigrationComments(original);
    p := PlanFor(stmt);
  }

  method MakePlans(statements: seq<string>) returns (plans: seq<Plan>)
    ensures plans == Plans(statements)
  {
    plans := [];
    for i := 0 to |statements|
      invariant |plans| == i && forall j | 0 <= j < i :: plans[j] == PlanOf(statements[j])
    {
      var p := MakePlan(statements[i]);
      plans := plans + [p];
    }
  }

  /** The database connection of a run; `log` is every state a crash could have left. */
  class Connection {
    var tables: Tables
    var mark: Mark
    ghost var log: seq<State>

    constructor (tables: Tables, mark: Mark)
      ensures Now() == State(tables, mark) && log == []
    {
      this.tables := tables;
      this.mark := mark;
      log := [];
    }

    ghost function Now(): State
      reads this
    {
      State(tables, mark)
    }

    /** What a step did: its writes are in the log and its last one is the state now. */
    twostate predicate Did(r: Ran)
      reads this
    {
      log == old(log) + r.writes && Now() == End(old(Now()), r)
    }

    /** The writes of a step outside the checkpoint. */
    method Write(e: Effect) returns (ok: bool)
      modifies this
      ensures Did(Written(old(Now()), e)) && ok == e.ok
    {
      ghost var r := Written(Now(), e);
      for i := 0 to |e.states|
        invariant log == old(log) + r.writes[..i] && Now() == At(old(Now()), r.writes, i)
      {
        tables := e.states[i];
        log := log + [Now()];
        assert r.writes[..i + 1] == r.writes[..i] + [r.writes[i]];
      }
      assert r.writes[..|e.states|] == r.writes;
      return e.ok;
    }

    method Checkpoint(w: World, create: bool) returns (ok: bool)
      modifies this
      ensures var r := if create then Record(w, old(Now())) else Look(w, old(Now())); Did(r) && ok == r.ok
    {
      if mark.Absent? && !create {
        return true;
      }
      var digest := Hash(w.hasher, w.names, tables);
      if digest.None? {
        return false;
      }
      if create {
        mark := if mark.Absent? then Empty else mark;
        log := log + [Now()];
        mark := if mark.Empty? then Holds(digest.value) else mark;
        log := log + [Now()];
      }
      return mark == Holds(digest.value);
    }

    method Step(w: World, p: Plan) returns (ok: bool)
      modifies this
      ensures var r := Statement(w, p, old(Now())); Did(r) && ok == r.ok
    {
      if p.Skip? {
        return true;
      }
      if p.gated && !w.gate(tables) {
        return false;
      }
      ok := true;
      if p.guarded {
        ok := Checkpoint(w, true);
      }
      if ok {
        ok := Write(w.exec(tables, p.text));
      }
    }

    /** The statement loop, once every statement has its plan. */
    method RunPlans(w: World, plans: seq<Plan>) returns (ok: bool)
      modifies this
      ensures var r := Body(w, plans, old(Now())); Did(r) && ok == r.ok
    {
      ghost var start := Now();
      for i := 0 to |plans|
        invariant log == old(log) + Body(w, plans[..i], start).writes
        invariant Now() == End(start, Body(w, plans[..i], start))
        invariant Body(w, plans[..i], start).ok
      {
        ghost var at, before := Now(), log;
        ok := Step(w, plans[i]);
        BodyNext(w, plans, i, start, at);
        ThenLogs(start, Body(w, plans[..i], start), old(log), before, at, Statement(w, plans[i], at), Now(), log);
        if !ok {
          BodyStops(w, plans, i + 1, start);
          return;
        }
      }
      assert plans[..|plans|] == plans;
      return true;
    }

    method SetUp(w: World) returns (ok: bool)
      modifies this
      ensures var r := Setup(w, old(Now())); Did(r) && ok == r.ok
    {
      ok := Checkpoint(w, false);
      if ok {
        ok := Prepare(w);
      }
    }

    method Prepare(w: World) returns (ok: bool)
      modifies this
      ensures var r := Prepared(w, old(Now())); Did(r) && ok == r.ok
    {
      ghost var s, l := Now(), log;
      ok := Write(w.mapping(tables));
      if !ok {
        return;
      }
      ghost var t, m := Now(), log;
      ok := Snapshot(w);
      ThenLogs(s, Written(s, w.mapping(s.tables)), l, m, t, Sources(w, t), Now(), log);
    }

    method Snapshot(w: World) returns (ok: bool)
      modifies this
      ensures var r := Sources(w, old(Now())); Did(r) && ok == r.ok
    {
      if Partial(tables) {
        return false;
      }
      ok := Write(w.sources(tables));
    }

    method Finish(w: World) returns (ok: bool)
      modifies this
      ensures var r := Final(w, old(Now())); Did(r) && ok == r.ok
    {
      if !w.valid(tables) {
        return false;
      }
      ok := Checkpoint(w, false);
      return ok && LegacyGone(tables) && w.schema(tables);
    }

    /** The whole migration, from the text of its SQL. */
    method ApplyPhysicalEOLMigration(w: World, body: string) returns (ok: bool)
      modifies this
      ensures var r := Attempt(w, Plans(SqlSplitter.Statements(body)), old(Now())); Did(r) && ok == r.ok
    {
      var statements := SqlSplitter.SplitSQLStatements(body);
      var plans := MakePlans(statements);
      ok := Run(w, plans);
    }

    method Run(w: World, plans: seq<Plan>) returns (ok: bool)
      modifies this
      ensures var r := Attempt(w, plans, old(Now())); Did(r) && ok == r.ok
    {
      ghost var s, l := Now(), log;
      ghost var a := Setup(w, s);
      AttemptParts(w, plans, s);
      ok := SetUp(w);
      if !ok {
        return;
      }
      ghost var t, m := Now(), log;
      ghost var b := Body(w, plans, t);
      ok := RunPlans(w, plans);
      ghost var ab := Ran(a.writes + b.writes, b.ok);
      ThenLogs(s, a, l, m, t, b, Now(), log);
      if !ok {
        return;
      }
      ghost var u, n := Now(), log;
      ok := Finish(w);
      ThenLogs(s, ab, l, n, u, Final(w, u), Now(), log);
    }
  }
}
