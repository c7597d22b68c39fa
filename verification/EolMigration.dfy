/**
 Migration 081 inside the runner: its attempt looks at the checkpoint, makes the
 archive correction in one transaction, goes on with snapshots, SQL and the
 checkpoint, and may fail at any of them. That makes it a correcting body.
 */
module EolMigration {
  import opened Text
  import AM = ArchiveMapping
  import opened CorrectionRuns
  import Runner = MigrationRunner
  import opened EolRetained
  import opened EolStatements
  import opened EolTexts
  import opened EolResume
  import SqlSplitter

  /** An attempt as the runner sees it. */
  function AttemptTrace(w: World, plans: seq<Plan>, s: State): Runner.Trace<State> {
    Runner.Trace(Attempt(w, plans, s).writes, Attempt(w, plans, s).ok)
  }

  /** The archive tables among all tables of a state. */
  function ViewOf(archive: Tables -> AM.Tables): State -> AM.Tables {
    (s: State) => archive(s.tables)
  }

  /** The mapping call: one committed transaction that corrects the archive tables, or an error and no write. */
  ghost predicate MappingCorrects(w: World, archive: Tables -> AM.Tables, d: AM.Digests, t: Tables)
    requires Ready(archive(t), d)
  {
    var e := w.mapping(t);
    || e == Effect([], false)
    || (e.ok && |e.states| == 1 && exists now :: AM.Corrected(archive(t), archive(e.states[0]), d, now))
  }

  ghost predicate LeavesArchive(archive: Tables -> AM.Tables, t: Tables, e: Effect) {
    forall i | 0 <= i < |e.states| :: Bare(archive(e.states[i])) == Bare(archive(t))
  }

  /** Only the mapping touches the archive tables. */
  ghost predicate OthersLeaveArchive(w: World, plans: seq<Plan>, archive: Tables -> AM.Tables) {
    forall t :: OthersLeaveAt(w, plans, archive, t)
  }

  ghost predicate OthersLeaveAt(w: World, plans: seq<Plan>, archive: Tables -> AM.Tables, t: Tables) {
    && LeavesArchive(archive, t, w.sources(t))
    && forall i | 0 <= i < |plans| && plans[i].Do? :: LeavesArchive(archive, t, w.exec(t, plans[i].text))
  }

  // -------------------------------------------------------------- everything else

  /** All writes leave the archive tables as they are. */
  ghost predicate Leaves(archive: Tables -> AM.Tables, s: State, writes: seq<State>) {
    forall i | 0 <= i < |writes| :: Bare(archive(writes[i].tables)) == Bare(archive(s.tables))
  }

  lemma LeavesThen(archive: Tables -> AM.Tables, s: State, a: seq<State>, b: seq<State>)
    requires Leaves(archive, s, a) && Leaves(archive, EolResume.At(s, a, |a|), b)
    ensures Leaves(archive, s, a + b)
  {
  }

  lemma WrittenLeaves(archive: Tables -> AM.Tables, s: State, e: Effect)
    requires LeavesArchive(archive, s.tables, e)
    ensures Leaves(archive, s, Written(s, e).writes)
  {
  }

  lemma StatementLeaves(w: World, plans: seq<Plan>, archive: Tables -> AM.Tables, i: nat, s: State)
    requires OthersLeaveArchive(w, plans, archive) && i < |plans|
    ensures Leaves(archive, s, Statement(w, plans[i], s).writes)
  {
    var p := plans[i];
    if p.Do? && !(p.gated && !w.gate(s.tables)) {
      var a := if p.guarded then Record(w, s) else Only(true);
      assert Leaves(archive, s, a.writes);
      if a.ok {
        var t := EolResume.End(s, a);
        assert OthersLeaveAt(w, plans, archive, t.tables);
        WrittenLeaves(archive, t, w.exec(t.tables, p.text));
        LeavesThen(archive, s, a.writes, Written(t, w.exec(t.tables, p.text)).writes);
      }
    }
  }

  lemma {:induction false} BodyLeaves(w: World, plans: seq<Plan>, archive: Tables -> AM.Tables, n: nat, s: State)
    requires OthersLeaveArchive(w, plans, archive) && n <= |plans|
    ensures Leaves(archive, s, Body(w, plans[..n], s).writes)
  {
    if n > 0 {
      var a := Body(w, plans[..n - 1], s);
      assert plans[..n][..n - 1] == plans[..n - 1];
      BodyLeaves(w, plans, archive, n - 1, s);
      if a.ok {
        StatementLeaves(w, plans, archive, n - 1, EolResume.End(s, a));
        LeavesThen(archive, s, a.writes, Statement(w, plans[n - 1], EolResume.End(s, a)).writes);
      }
    }
  }

  // ------------------------------------------------------------------- the attempt

  /** Nothing is written, or the correction first and then writes that leave it alone; a success has made it. */
  ghost predicate CorrectsFirst(archive: Tables -> AM.Tables, d: AM.Digests, s: State, r: Ran)
    requires Ready(archive(s.tables), d)
  {
    || r == Only(false)
    || (|r.writes| > 0
        && Bare(archive(r.writes[0].tables)) == Target(archive(s.tables), d)
        && Leaves(archive, r.writes[0], r.writes))
  }

  lemma CorrectsFirstThen(archive: Tables -> AM.Tables, d: AM.Digests, s: State, a: Ran, b: Ran)
    requires Ready(archive(s.tables), d) && CorrectsFirst(archive, d, s, a) && a.ok
    requires Leaves(archive, EolResume.End(s, a), b.writes)
    ensures CorrectsFirst(archive, d, s, Ran(a.writes + b.writes, b.ok))
  {
    var r := a.writes + b.writes;
    assert Leaves(archive, r[0], a.writes);
    LeavesThen(archive, r[0], a.writes, b.writes);
  }

  lemma PreparedCorrects(w: World, plans: seq<Plan>, archive: Tables -> AM.Tables, d: AM.Digests, s: State)
    requires Ready(archive(s.tables), d) && MappingCorrects(w, archive, d, s.tables) && OthersLeaveArchive(w, plans, archive)
    ensures CorrectsFirst(archive, d, s, Prepared(w, s))
  {
    var e := w.mapping(s.tables);
    var a := Written(s, e);
    if e.ok {
      var now :| AM.Corrected(archive(s.tables), archive(e.states[0]), d, now);
      CorrectedIsTarget(archive(s.tables), archive(e.states[0]), d, now);
      assert CorrectsFirst(archive, d, s, a);
      var t := EolResume.End(s, a);
      assert OthersLeaveAt(w, plans, archive, t.tables);
      WrittenLeaves(archive, t, w.sources(t.tables));
      CorrectsFirstThen(archive, d, s, a, Sources(w, t));
    }
  }

  lemma AttemptCorrectsFirst(w: World, plans: seq<Plan>, archive: Tables -> AM.Tables, d: AM.Digests, s: State)
    requires Ready(archive(s.tables), d) && MappingCorrects(w, archive, d, s.tables) && OthersLeaveArchive(w, plans, archive)
    ensures CorrectsFirst(archive, d, s, Attempt(w, plans, s))
  {
    var a := Setup(w, s);
    AttemptParts(w, plans, s);
    PreparedCorrects(w, plans, archive, d, s);
    if a.ok {
      var t := EolResume.End(s, a);
      var b := Body(w, plans, t);
      assert plans[..|plans|] == plans;
      BodyLeaves(w, plans, archive, |plans|, t);
      CorrectsFirstThen(archive, d, s, a, b);
      assert a.writes + b.writes + [] == a.writes + b.writes;
    }
  }

  lemma FirstIsCourse(archive: Tables -> AM.Tables, d: AM.Digests, s: State, r: Ran)
    requires Ready(archive(s.tables), d) && CorrectsFirst(archive, d, s, r)
    ensures CorrectingTrace(ViewOf(archive), d, s, Runner.Trace(r.writes, r.ok))
  {
  }

  /** So 081 is a correcting body, for whatever its SQL does elsewhere and wherever it fails. */
  lemma PhysicalEOLCorrects(
    runner: Runner.World<State>, id: string, w: World, plans: seq<Plan>, archive: Tables -> AM.Tables, d: AM.Digests)
    requires runner.migrations(id).Special? && forall s :: runner.migrations(id).run(s) == AttemptTrace(w, plans, s)
    requires forall t | Ready(archive(t), d) :: MappingCorrects(w, archive, d, t)
    requires OthersLeaveArchive(w, plans, archive)
    ensures Corrects(runner, id, ViewOf(archive), d)
  {
    forall s | Ready(ViewOf(archive)(s), d)
      ensures CorrectingTrace(ViewOf(archive), d, s, Runner.TraceOf(runner, id, s))
    {
      assert MappingCorrects(w, archive, d, s.tables);
      AttemptCorrectsFirst(w, plans, archive, d, s);
      FirstIsCourse(archive, d, s, Attempt(w, plans, s));
      assert runner.migrations(id).run(s) == AttemptTrace(w, plans, s);
    }
  }

  // ------------------------------------------------------ the statements themselves

  /** Only the five statements of the old move touch the archive tables; the snapshots do not. */
  ghost predicate OnlyArchiveStatementsTouch(w: World, archive: Tables -> AM.Tables) {
    forall t ::
      && LeavesArchive(archive, t, w.sources(t))
      && forall text | !IsArchiveStatement(text) :: LeavesArchive(archive, t, w.exec(t, text))
  }

  /** For every SQL text: what is left out and rewritten keeps all other statements away from the archive tables. */
  lemma PlansLeaveArchive(w: World, archive: Tables -> AM.Tables, statements: seq<string>)
    requires OnlyArchiveStatementsTouch(w, archive)
    ensures OthersLeaveArchive(w, Plans(statements), archive)
  {
    var plans := Plans(statements);
    forall t
      ensures OthersLeaveAt(w, plans, archive, t)
    {
      assert LeavesArchive(archive, t, w.sources(t));
      forall i | 0 <= i < |plans| && plans[i].Do?
        ensures LeavesArchive(archive, t, w.exec(t, plans[i].text))
      {
        ExecutedIsNotArchive(statements[i]);
      }
    }
  }

  /** Migration 081 with any SQL text is a correcting body. */
  lemma DistributedEOLCorrects(
    runner: Runner.World<State>, id: string, w: World, body: string, archive: Tables -> AM.Tables, d: AM.Digests)
    requires runner.migrations(id).Special?
    requires forall s :: runner.migrations(id).run(s) == AttemptTrace(w, Plans(SqlSplitter.Statements(body)), s)
    requires forall t | Ready(archive(t), d) :: MappingCorrects(w, archive, d, t)
    requires OnlyArchiveStatementsTouch(w, archive)
    ensures Corrects(runner, id, ViewOf(archive), d)
  {
    PlansLeaveArchive(w, archive, SqlSplitter.Statements(body));
    PhysicalEOLCorrects(runner, id, w, Plans(SqlSplitter.Statements(body)), archive, d);
  }
}
