/**
 The migration runner: bodies are applied in order and recorded one by one. An
 ordinary body is executed statement by statement without a transaction. A
 process may die between any two durable writes, and is then started again.
 */
module MigrationRunner {
  import opened Text
  import SqlSplitter

  /** The durable states that applying a body goes through, and whether it got to its end. */
  datatype Trace<+DB> = Trace(states: seq<DB>, ok: bool)

  /** A migration: SQL text, or one of the two that have code of their own. */
  datatype Migration<!DB> = Sql(text: string) | Special(run: DB -> Trace<DB>)

  /** The migrations, and what one SQL statement does to the database or that it fails and changes nothing. */
  datatype World<!DB> = World(migrations: string -> Migration<DB>, exec: (string, DB) -> Option<DB>)

  ghost predicate Distinct(entries: seq<string>) {
    forall i, j | 0 <= i < j < |entries| :: entries[i] != entries[j]
  }

  // ------------------------------------------------------------- applying a body

  /** The database after the first k durable writes of a trace. */
  function At<DB>(db: DB, states: seq<DB>, k: nat): DB
    requires k <= |states|
  {
    if k == 0 then db else states[k - 1]
  }

  function End<DB>(db: DB, t: Trace<DB>): DB {
    At(db, t.states, |t.states|)
  }

  /** Statement after statement, up to the first that fails. */
  function ExecAll<DB>(exec: (string, DB) -> Option<DB>, statements: seq<string>, db: DB): (r: Trace<DB>)
    ensures |r.states| <= |statements|
  {
    if statements == [] then Trace([], true)
    else
      match exec(statements[0], db)
      case None => Trace([], false)
      case Some(next) =>
        var rest := ExecAll(exec, statements[1..], next);
        Trace([next] + rest.states, rest.ok)
  }

  function TraceOf<DB>(w: World<DB>, id: string, db: DB): Trace<DB> {
    match w.migrations(id)
    case Sql(text) => ExecAll(w.exec, SqlSplitter.Statements(text), db)
    case Special(run) => run(db)
  }

  /** What an uninterrupted body makes of a database. */
  function Whole<DB>(w: World<DB>, id: string, db: DB): Option<DB> {
    var t := TraceOf(w, id, db);
    if t.ok then Some(End(db, t)) else None
  }

  /** One uninterrupted pass over the entries that are not recorded yet. */
  function Straight<DB>(w: World<DB>, entries: seq<string>, applied: set<string>, db: DB): Option<DB> {
    if entries == [] then Some(db)
    else if entries[0] in applied then Straight(w, entries[1..], applied, db)
    else
      var next := Whole(w, entries[0], db);
      if next.None? then None else Straight(w, entries[1..], applied, next.value)
  }

  // ---------------------------------------------------------- one life of the process

  datatype Outcome = Finished | Failed | Died

  datatype Life<+DB> = Life(db: DB, applied: set<string>, outcome: Outcome)

  /** What is durable when a process that started there dies after that many writes, or gets to its end before. */
  function LifeOf<DB>(w: World<DB>, entries: seq<string>, applied: set<string>, db: DB, writes: nat): Life<DB> {
    if entries == [] then Life(db, applied, Finished)
    else if entries[0] in applied then LifeOf(w, entries[1..], applied, db, writes)
    else
      var t := TraceOf(w, entries[0], db);
      if writes < |t.states| then Life(At(db, t.states, writes), applied, Died)
      else if !t.ok then Life(End(db, t), applied, Failed)
      else if writes == |t.states| then Life(End(db, t), applied, Died)
      else LifeOf(w, entries[1..], applied + {entries[0]}, End(db, t), writes - |t.states| - 1)
  }

  class Runner<DB(!new)> {
    var db: DB
    var applied: set<string>

    constructor (db: DB, applied: set<string>)
      ensures this.db == db && this.applied == applied
    {
      this.db := db;
      this.applied := applied;
    }

    /** The statement loop of an ordinary body; it may die before any statement. */
    method ExecStatements(w: World<DB>, statements: seq<string>, writes: nat) returns (outcome: Outcome, left: nat)
      modifies this`db
      ensures var t := ExecAll(w.exec, statements, old(db));
              && outcome == (if writes < |t.states| then Died else if t.ok then Finished else Failed)
              && (outcome == Died ==> db == At(old(db), t.states, writes))
              && (outcome != Died ==> db == End(old(db), t) && left == writes - |t.states|)
    {
      left := writes;
      var i := 0;
      ghost var t := ExecAll(w.exec, statements, db);
      while i < |statements|
        invariant 0 <= i <= |statements| && i <= |t.states| && left + i == writes
        invariant db == At(old(db), t.states, i)
        invariant ExecAll(w.exec, statements[i..], db) == Trace(t.states[i..], t.ok)
      {
        ExecNext(w.exec, statements, i, db);
        var next := w.exec(statements[i], db);
        if next.None? {
          return Failed, left;
        }
        if left == 0 {
          return Died, left;
        }
        db := next.value;
        left, i := left - 1, i + 1;
      }
      return Finished, left;
    }

    /** applyMigrationBody. */
    method ApplyMigrationBody(w: World<DB>, id: string, writes: nat) returns (outcome: Outcome, left: nat)
      modifies this`db
      ensures var t := TraceOf(w, id, old(db));
              && outcome == (if writes < |t.states| then Died else if t.ok then Finished else Failed)
              && (outcome == Died ==> db == At(old(db), t.states, writes))
              && (outcome != Died ==> db == End(old(db), t) && left == writes - |t.states|)
    {
      var m := w.migrations(id);
      match m
      case Sql(text) =>
        var statements := SqlSplitter.SplitSQLStatements(text);
        outcome, left := ExecStatements(w, statements, writes);
      case Special(run) =>
        var t := run(db);
        if writes < |t.states| {
          db := At(db, t.states, writes);
          return Died, 0;
        }
        db := End(db, t);
        return if t.ok then Finished else Failed, writes - |t.states|;
    }

    /** runMigrationsFS: apply, then record, entry by entry. */
    method RunMigrations(w: World<DB>, entries: seq<string>, writes: nat) returns (outcome: Outcome)
      modifies this
      ensures Life(db, applied, outcome) == LifeOf(w, entries, old(applied), old(db), writes)
    {
      var left := writes;
      var n := 0;
      while n < |entries|
        invariant 0 <= n <= |entries|
        invariant LifeOf(w, entries[n..], applied, db, left) == LifeOf(w, entries, old(applied), old(db), writes)
      {
        assert entries[n..][1..] == entries[n + 1..];
        if entries[n] !in applied {
          var body, rest := ApplyMigrationBody(w, entries[n], left);
          if body != Finished {
            return body;
          }
          if rest == 0 {
            return Died;
          }
          applied := applied + {entries[n]};
          left := rest - 1;
        }
        n := n + 1;
      }
      return Finished;
    }
  }

  lemma ExecNext<DB>(exec: (string, DB) -> Option<DB>, statements: seq<string>, i: nat, db: DB)
    requires i < |statements|
    ensures var here := ExecAll(exec, statements[i..], db);
            match exec(statements[i], db)
            case None => here == Trace([], false)
            case Some(next) =>
              var rest := ExecAll(exec, statements[i + 1..], next);
              here == Trace([next] + rest.states, rest.ok) && here.states[1..] == rest.states
  {
    assert statements[i..][1..] == statements[i + 1..];
  }

  // ------------------------------------------------------------------ many lives

  /** One life after the other, each from what the one before left behind. */
  function Lives<DB>(w: World<DB>, entries: seq<string>, applied: set<string>, db: DB, budgets: seq<nat>): Life<DB> {
    if budgets == [] then Life(db, applied, Died)
    else
      var n := |budgets| - 1;
      var before := Lives(w, entries, applied, db, budgets[..n]);
      LifeOf(w, entries, before.applied, before.db, budgets[n])
  }

  /** From wherever a body can be interrupted, doing it again comes to what doing it once comes to. */
  ghost predicate Resumable<DB(!new)>(w: World<DB>, id: string, db: DB) {
    forall k | 0 <= k <= |TraceOf(w, id, db).states| :: Whole(w, id, At(db, TraceOf(w, id, db).states, k)) == Whole(w, id, db)
  }

  /** What is left of a database after a body was begun and interrupted again and again. */
  function Interrupted<DB>(w: World<DB>, id: string, db: DB, writes: seq<nat>): DB
    decreases |writes|
  {
    if writes == [] then db
    else
      var states := TraceOf(w, id, db).states;
      Interrupted(w, id, At(db, states, if writes[0] <= |states| then writes[0] else |states|), writes[1..])
  }

  /** The body stays resumable, however often it is interrupted. */
  ghost predicate AlwaysResumable<DB(!new)>(w: World<DB>, id: string, db: DB) {
    forall writes :: Resumable(w, id, Interrupted(w, id, db, writes))
  }

  /** Every body that is still to come is resumable on the database it will meet. */
  ghost predicate ResumableOnTheWay<DB(!new)>(w: World<DB>, entries: seq<string>, applied: set<string>, db: DB) {
    if entries == [] then true
    else if entries[0] in applied then ResumableOnTheWay(w, entries[1..], applied, db)
    else
      && AlwaysResumable(w, entries[0], db)
      && (Whole(w, entries[0], db).Some? ==> ResumableOnTheWay(w, entries[1..], applied, Whole(w, entries[0], db).value))
  }

  /** An entry recorded that does not occur makes no difference. */
  lemma {:induction false} StraightIgnores<DB>(w: World<DB>, entries: seq<string>, applied: set<string>, id: string, db: DB)
    requires id !in entries
    ensures Straight(w, entries, applied + {id}, db) == Straight(w, entries, applied, db)
  {
    if entries != [] {
      assert id !in entries[1..];
      if entries[0] in applied {
        StraightIgnores(w, entries[1..], applied, id, db);
      } else if Whole(w, entries[0], db).Some? {
        StraightIgnores(w, entries[1..], applied, id, Whole(w, entries[0], db).value);
      }
    }
  }

  lemma {:induction false} LifeKeepsRecords<DB>(w: World<DB>, entries: seq<string>, applied: set<string>, db: DB, writes: nat)
    ensures var l := LifeOf(w, entries, applied, db, writes);
            && applied <= l.applied
            && (l.outcome == Finished ==> forall i | 0 <= i < |entries| :: entries[i] in l.applied)
  {
    if entries != [] {
      var t := TraceOf(w, entries[0], db);
      if entries[0] in applied {
        LifeKeepsRecords(w, entries[1..], applied, db, writes);
      } else if t.ok && writes > |t.states| {
        LifeKeepsRecords(w, entries[1..], applied + {entries[0]}, End(db, t), writes - |t.states| - 1);
      }
    }
  }

  lemma {:induction false} OnTheWayIgnores<DB(!new)>(w: World<DB>, entries: seq<string>, applied: set<string>, id: string, db: DB)
    requires id !in entries
    ensures ResumableOnTheWay(w, entries, applied + {id}, db) <==> ResumableOnTheWay(w, entries, applied, db)
  {
    if entries != [] {
      assert id !in entries[1..];
      if entries[0] in applied {
        OnTheWayIgnores(w, entries[1..], applied, id, db);
      } else if Whole(w, entries[0], db).Some? {
        OnTheWayIgnores(w, entries[1..], applied, id, Whole(w, entries[0], db).value);
      }
    }
  }

  /** One more interruption changes neither what a body comes to nor that it is resumable. */
  lemma InterruptedOnce<DB(!new)>(w: World<DB>, id: string, db: DB, k: nat)
    requires AlwaysResumable(w, id, db) && k <= |TraceOf(w, id, db).states|
    ensures var x := At(db, TraceOf(w, id, db).states, k);
            AlwaysResumable(w, id, x) && Whole(w, id, x) == Whole(w, id, db)
  {
    var x := At(db, TraceOf(w, id, db).states, k);
    forall writes
      ensures Resumable(w, id, Interrupted(w, id, x, writes))
    {
      assert ([k] + writes)[1..] == writes;
      assert Interrupted(w, id, db, [k] + writes) == Interrupted(w, id, x, writes);
      assert Resumable(w, id, Interrupted(w, id, db, [k] + writes));
    }
    assert Interrupted(w, id, db, []) == db;
    assert Resumable(w, id, Interrupted(w, id, db, []));
  }

  lemma DistinctRest(entries: seq<string>)
    requires entries != [] && Distinct(entries)
    ensures Distinct(entries[1..]) && entries[0] !in entries[1..]
  {
  }

  /** A life that gets past an entry goes on with the rest. */
  lemma LifePastFirst<DB(!new)>(w: World<DB>, entries: seq<string>, applied: set<string>, db: DB, l: Life<DB>)
    requires entries != [] && Distinct(entries) && entries[0] !in applied && applied + {entries[0]} <= l.applied
    requires Whole(w, entries[0], db).Some?
    requires var next := Whole(w, entries[0], db).value;
             && Straight(w, entries[1..], l.applied, l.db) == Straight(w, entries[1..], applied + {entries[0]}, next)
             && ResumableOnTheWay(w, entries[1..], l.applied, l.db)
    ensures Straight(w, entries, l.applied, l.db) == Straight(w, entries, applied, db)
    ensures ResumableOnTheWay(w, entries, l.applied, l.db)
  {
    DistinctRest(entries);
    StraightIgnores(w, entries[1..], applied, entries[0], Whole(w, entries[0], db).value);
  }

  /** Wherever a life ends, an uninterrupted pass from there comes to what it would have come to before. */
  lemma {:induction false} LifeKeepsGoal<DB(!new)>(w: World<DB>, entries: seq<string>, applied: set<string>, db: DB, writes: nat)
    requires Distinct(entries) && ResumableOnTheWay(w, entries, applied, db)
    ensures var l := LifeOf(w, entries, applied, db, writes);
            && Straight(w, entries, l.applied, l.db) == Straight(w, entries, applied, db)
            && ResumableOnTheWay(w, entries, l.applied, l.db)
  {
    if entries != [] {
      DistinctRest(entries);
      var t, rest := TraceOf(w, entries[0], db), entries[1..];
      if entries[0] in applied {
        LifeKeepsGoal(w, rest, applied, db, writes);
        LifeKeepsRecords(w, rest, applied, db, writes);
      } else if t.ok && writes > |t.states| {
        var next, left := End(db, t), writes - |t.states| - 1;
        OnTheWayIgnores(w, rest, applied, entries[0], next);
        LifeKeepsGoal(w, rest, applied + {entries[0]}, next, left);
        LifeKeepsRecords(w, rest, applied + {entries[0]}, next, left);
        LifePastFirst(w, entries, applied, db, LifeOf(w, rest, applied + {entries[0]}, next, left));
      } else {
        InterruptedOnce(w, entries[0], db, if writes < |t.states| then writes else |t.states|);
      }
    }
  }

  lemma {:induction false} LivesKeepGoal<DB(!new)>(w: World<DB>, entries: seq<string>, applied: set<string>, db: DB, budgets: seq<nat>)
    requires Distinct(entries) && ResumableOnTheWay(w, entries, applied, db)
    ensures var l := Lives(w, entries, applied, db, budgets);
            && Straight(w, entries, l.applied, l.db) == Straight(w, entries, applied, db)
            && ResumableOnTheWay(w, entries, l.applied, l.db)
  {
    if budgets != [] {
      var n := |budgets| - 1;
      LivesKeepGoal(w, entries, applied, db, budgets[..n]);
      var before := Lives(w, entries, applied, db, budgets[..n]);
      LifeKeepsGoal(w, entries, before.applied, before.db, budgets[n]);
    }
  }

  lemma {:induction false} AllRecorded<DB>(w: World<DB>, entries: seq<string>, applied: set<string>, db: DB)
    requires forall i | 0 <= i < |entries| :: entries[i] in applied
    ensures Straight(w, entries, applied, db) == Some(db)
  {
    if entries != [] {
      AllRecorded(w, entries[1..], applied, db);
    }
  }

  /**
   However often and wherever the process died on the way, once everything is
   recorded the database is what one uninterrupted pass leaves; and a life that
   finishes has recorded everything.
   */
  lemma RestartsConverge<DB(!new)>(w: World<DB>, entries: seq<string>, applied: set<string>, db: DB, budgets: seq<nat>)
    requires Distinct(entries) && ResumableOnTheWay(w, entries, applied, db)
    ensures var l := Lives(w, entries, applied, db, budgets);
            && ((forall i | 0 <= i < |entries| :: entries[i] in l.applied) ==> Straight(w, entries, applied, db) == Some(l.db))
            && (l.outcome == Finished ==> Straight(w, entries, applied, db) == Some(l.db))
  {
    LivesKeepGoal(w, entries, applied, db, budgets);
    var l := Lives(w, entries, applied, db, budgets);
    if forall i | 0 <= i < |entries| :: entries[i] in l.applied {
      AllRecorded(w, entries, l.applied, l.db);
    }
    if budgets != [] {
      var before := Lives(w, entries, applied, db, budgets[..|budgets| - 1]);
      LifeKeepsRecords(w, entries, before.applied, before.db, budgets[|budgets| - 1]);
    }
  }

  // ------------------------------------------------ reaching something on the way

  /** Wherever the body is interrupted `inv` still holds and `goal` is not lost; a reaching body that succeeds gets there. */
  ghost predicate BodyKeeps<DB(!new)>(w: World<DB>, id: string, inv: DB -> bool, goal: DB -> bool, reaches: bool) {
    forall x, k | inv(x) && 0 <= k <= |TraceOf(w, id, x).states| :: StateKept(w, id, inv, goal, reaches, x, k)
  }

  ghost predicate StateKept<DB(!new)>(w: World<DB>, id: string, inv: DB -> bool, goal: DB -> bool, reaches: bool, x: DB, k: nat)
    requires k <= |TraceOf(w, id, x).states|
  {
    var tr := TraceOf(w, id, x);
    && inv(At(x, tr.states, k))
    && (goal(x) ==> goal(At(x, tr.states, k)))
    && (reaches && tr.ok && k == |tr.states| ==> goal(At(x, tr.states, k)))
  }

  ghost predicate AllKeep<DB(!new)>(w: World<DB>, entries: seq<string>, inv: DB -> bool, goal: DB -> bool, reaches: string -> bool) {
    forall i | 0 <= i < |entries| :: BodyKeeps(w, entries[i], inv, goal, reaches(entries[i]))
  }

  /** A reaching entry has been recorded. */
  ghost predicate NewlyReached(entries: seq<string>, reaches: string -> bool, before: set<string>, after: set<string>) {
    exists i | 0 <= i < |entries| :: reaches(entries[i]) && entries[i] !in before && entries[i] in after
  }

  ghost predicate LifeKept<DB(!new)>(
    entries: seq<string>, inv: DB -> bool, goal: DB -> bool, reaches: string -> bool, applied: set<string>, db: DB, l: Life<DB>)
  {
    inv(l.db) && (goal(db) ==> goal(l.db)) && (NewlyReached(entries, reaches, applied, l.applied) ==> goal(l.db))
  }

  /** The first entry is recorded, before or now, and the rest goes on from there. */
  lemma KeptByRest<DB(!new)>(
    entries: seq<string>, inv: DB -> bool, goal: DB -> bool, reaches: string -> bool,
    applied: set<string>, more: set<string>, db: DB, next: DB, l: Life<DB>)
    requires entries != [] && more == applied + {entries[0]}
    requires goal(db) || (reaches(entries[0]) && entries[0] !in applied) ==> goal(next)
    requires LifeKept(entries[1..], inv, goal, reaches, more, next, l)
    ensures LifeKept(entries, inv, goal, reaches, applied, db, l)
  {
    if NewlyReached(entries, reaches, applied, l.applied) {
      var i :| 0 <= i < |entries| && reaches(entries[i]) && entries[i] !in applied && entries[i] in l.applied;
      if entries[i] != entries[0] {
        assert entries[1..][i - 1] == entries[i];
        assert NewlyReached(entries[1..], reaches, more, l.applied);
      }
    }
  }

  lemma RestKeeps<DB(!new)>(w: World<DB>, entries: seq<string>, inv: DB -> bool, goal: DB -> bool, reaches: string -> bool)
    requires entries != [] && AllKeep(w, entries, inv, goal, reaches)
    ensures BodyKeeps(w, entries[0], inv, goal, reaches(entries[0])) && AllKeep(w, entries[1..], inv, goal, reaches)
  {
    assert forall i | 0 <= i < |entries[1..]| :: entries[1..][i] == entries[i + 1];
  }

  /** What every body keeps and reaches, every life keeps and reaches. */
  lemma {:induction false} LifeKeeps<DB(!new)>(
    w: World<DB>, entries: seq<string>, inv: DB -> bool, goal: DB -> bool, reaches: string -> bool,
    applied: set<string>, db: DB, writes: nat)
    requires inv(db) && AllKeep(w, entries, inv, goal, reaches)
    ensures LifeKept(entries, inv, goal, reaches, applied, db, LifeOf(w, entries, applied, db, writes))
  {
    if entries != [] {
      var rest, tr := entries[1..], TraceOf(w, entries[0], db);
      RestKeeps(w, entries, inv, goal, reaches);
      if entries[0] in applied {
        LifeKeeps(w, rest, inv, goal, reaches, applied, db, writes);
        assert applied == applied + {entries[0]};
        KeptByRest(entries, inv, goal, reaches, applied, applied, db, db, LifeOf(w, rest, applied, db, writes));
      } else if tr.ok && writes > |tr.states| {
        var more, next, left := applied + {entries[0]}, End(db, tr), writes - |tr.states| - 1;
        assert StateKept(w, entries[0], inv, goal, reaches(entries[0]), db, |tr.states|);
        LifeKeeps(w, rest, inv, goal, reaches, more, next, left);
        KeptByRest(entries, inv, goal, reaches, applied, more, db, next, LifeOf(w, rest, more, next, left));
      } else {
        var k := if writes < |tr.states| then writes else |tr.states|;
        assert StateKept(w, entries[0], inv, goal, reaches(entries[0]), db, k);
      }
    }
  }

  lemma {:induction false} LivesKeep<DB(!new)>(
    w: World<DB>, entries: seq<string>, inv: DB -> bool, goal: DB -> bool, reaches: string -> bool,
    applied: set<string>, db: DB, budgets: seq<nat>)
    requires inv(db) && AllKeep(w, entries, inv, goal, reaches)
    ensures LifeKept(entries, inv, goal, reaches, applied, db, Lives(w, entries, applied, db, budgets))
  {
    if budgets != [] {
      var n := |budgets| - 1;
      var before := Lives(w, entries, applied, db, budgets[..n]);
      LivesKeep(w, entries, inv, goal, reaches, applied, db, budgets[..n]);
      LifeKeeps(w, entries, inv, goal, reaches, before.applied, before.db, budgets[n]);
      var l := Lives(w, entries, applied, db, budgets);
      if NewlyReached(entries, reaches, applied, l.applied) {
        var i :| 0 <= i < |entries| && reaches(entries[i]) && entries[i] !in applied && entries[i] in l.applied;
        assert entries[i] in before.applied ==> NewlyReached(entries, reaches, applied, before.applied);
        assert entries[i] !in before.applied ==> NewlyReached(entries, reaches, before.applied, l.applied);
      }
    }
  }

  /** Once reached, later lives do not lose it. */
  lemma {:induction false} LivesNeverLose<DB(!new)>(
    w: World<DB>, entries: seq<string>, inv: DB -> bool, goal: DB -> bool, reaches: string -> bool,
    applied: set<string>, db: DB, budgets: seq<nat>, m: nat)
    requires inv(db) && AllKeep(w, entries, inv, goal, reaches) && m <= |budgets|
    requires goal(Lives(w, entries, applied, db, budgets[..m]).db)
    ensures goal(Lives(w, entries, applied, db, budgets).db)
    decreases |budgets|
  {
    if m == |budgets| {
      assert budgets[..m] == budgets;
    } else {
      var n := |budgets| - 1;
      assert budgets[..n][..m] == budgets[..m];
      LivesNeverLose(w, entries, inv, goal, reaches, applied, db, budgets[..n], m);
      LivesKeep(w, entries, inv, goal, reaches, applied, db, budgets[..n]);
      var before := Lives(w, entries, applied, db, budgets[..n]);
      LifeKeeps(w, entries, inv, goal, reaches, before.applied, before.db, budgets[n]);
    }
  }

  // ------------------------------------------------------------ ordinary SQL bodies

  /** Executing done statements again changes nothing. */
  ghost predicate Repeats<DB(!new)>(exec: (string, DB) -> Option<DB>, statements: seq<string>, k: nat, db: DB)
    requires k <= |statements|
  {
    forall i | 0 <= i < k :: exec(statements[i], db) == Some(db)
  }

  /** As long as statements change nothing, only the rest matters. */
  lemma {:induction false} SkipsDone<DB(!new)>(exec: (string, DB) -> Option<DB>, statements: seq<string>, k: nat, db: DB)
    requires k <= |statements| && Repeats(exec, statements, k, db)
    ensures var all, rest := ExecAll(exec, statements, db), ExecAll(exec, statements[k..], db);
            all.ok == rest.ok && End(db, all) == End(db, rest)
    decreases k
  {
    if k > 0 {
      var tail := statements[1..];
      forall i | 0 <= i < k - 1
        ensures exec(tail[i], db) == Some(db)
      {
        assert tail[i] == statements[i + 1];
      }
      SkipsDone(exec, tail, k - 1, db);
      assert tail[k - 1..] == statements[k..];
    } else {
      assert statements[0..] == statements;
    }
  }

  /** The rest of the statements, from the state after the first k. */
  lemma {:induction false} RestFrom<DB>(exec: (string, DB) -> Option<DB>, statements: seq<string>, db: DB, k: nat)
    requires k <= |ExecAll(exec, statements, db).states|
    ensures k <= |statements|
    ensures var all := ExecAll(exec, statements, db);
            var rest := ExecAll(exec, statements[k..], At(db, all.states, k));
            rest.ok == all.ok && End(At(db, all.states, k), rest) == End(db, all)
    decreases k
  {
    var all := ExecAll(exec, statements, db);
    if k == 0 {
      assert statements[0..] == statements;
    } else {
      var next := exec(statements[0], db).value;
      RestFrom(exec, statements[1..], next, k - 1);
      assert statements[1..][k - 1..] == statements[k..];
    }
  }

  /** Wherever the body is interrupted, all statements done so far change nothing when they are repeated. */
  ghost predicate Guarded<DB(!new)>(exec: (string, DB) -> Option<DB>, statements: seq<string>, db: DB) {
    forall k | 0 <= k <= |ExecAll(exec, statements, db).states| ::
      Repeats(exec, statements, k, At(db, ExecAll(exec, statements, db).states, k))
  }

  /** A statement that is done, repeated there, changes nothing, like a guarded one, or fails, like a plain ADD COLUMN. */
  ghost predicate RepeatsOrFails<DB(!new)>(exec: (string, DB) -> Option<DB>, statements: seq<string>, db: DB) {
    forall k, i | 0 <= i < k <= |ExecAll(exec, statements, db).states| ::
      var x := At(db, ExecAll(exec, statements, db).states, k);
      exec(statements[i], x) == Some(x) || exec(statements[i], x).None?
  }

  /** Guarded statements make a body resumable. */
  lemma GuardedBodyIsResumable<DB(!new)>(w: World<DB>, id: string, db: DB, text: string, k: nat)
    requires w.migrations(id) == Sql(text)
    requires var states := ExecAll(w.exec, SqlSplitter.Statements(text), db).states;
             k <= |states| && Repeats(w.exec, SqlSplitter.Statements(text), k, At(db, states, k))
    ensures Whole(w, id, At(db, TraceOf(w, id, db).states, k)) == Whole(w, id, db)
  {
    var statements := SqlSplitter.Statements(text);
    var states := ExecAll(w.exec, statements, db).states;
    SkipsDone(w.exec, statements, k, At(db, states, k));
    RestFrom(w.exec, statements, db, k);
  }

  /** The first done statement that does not repeat. */
  lemma {:induction false} FirstRefusal<DB(!new)>(exec: (string, DB) -> Option<DB>, statements: seq<string>, k: nat, x: DB) returns (i: nat)
    requires k <= |statements| && !Repeats(exec, statements, k, x)
    requires forall j | 0 <= j < k :: exec(statements[j], x) == Some(x) || exec(statements[j], x).None?
    ensures i < k && Repeats(exec, statements, i, x) && exec(statements[i], x).None?
    decreases k
  {
    if Repeats(exec, statements, k - 1, x) {
      i := k - 1;
    } else {
      i := FirstRefusal(exec, statements, k - 1, x);
    }
  }

  /** Statements that repeat and then one that fails: the body fails there and has changed nothing. */
  lemma {:induction false} StopsAt<DB(!new)>(exec: (string, DB) -> Option<DB>, statements: seq<string>, i: nat, x: DB)
    requires i < |statements| && Repeats(exec, statements, i, x) && exec(statements[i], x).None?
    ensures var t := ExecAll(exec, statements, x); !t.ok && forall j | 0 <= j < |t.states| :: t.states[j] == x
    decreases i
  {
    if i > 0 {
      var tail := statements[1..];
      forall j | 0 <= j < i - 1
        ensures exec(tail[j], x) == Some(x)
      {
        assert tail[j] == statements[j + 1];
      }
      assert tail[i - 1] == statements[i];
      assert exec(statements[0], x) == Some(x);
      StopsAt(exec, tail, i - 1, x);
    }
  }

  /** Begun again there, the body fails and nothing changes. */
  ghost predicate Stuck<DB(!new)>(w: World<DB>, id: string, x: DB) {
    var t := TraceOf(w, id, x);
    !t.ok && forall j | 0 <= j < |t.states| :: t.states[j] == x
  }

  /** A body interrupted where a done statement does not repeat is stuck. */
  lemma UnrepeatableIsStuck<DB(!new)>(w: World<DB>, id: string, db: DB, text: string, k: nat)
    requires w.migrations(id) == Sql(text)
    requires var statements := SqlSplitter.Statements(text);
             var states := ExecAll(w.exec, statements, db).states;
             RepeatsOrFails(w.exec, statements, db) && k <= |states| && !Repeats(w.exec, statements, k, At(db, states, k))
    ensures Stuck(w, id, At(db, TraceOf(w, id, db).states, k))
  {
    var statements := SqlSplitter.Statements(text);
    var x := At(db, ExecAll(w.exec, statements, db).states, k);
    var i := FirstRefusal(w.exec, statements, k, x);
    StopsAt(w.exec, statements, i, x);
  }

  /**
   For a body that can be done at all, and whose statements repeat or fail: it is
   resumable exactly when, wherever it is interrupted, every statement done so far
   changes nothing when it is repeated.
   */
  lemma ResumableExactlyWhenGuarded<DB(!new)>(w: World<DB>, id: string, db: DB, text: string)
    requires w.migrations(id) == Sql(text) && Whole(w, id, db).Some?
    requires RepeatsOrFails(w.exec, SqlSplitter.Statements(text), db)
    ensures Resumable(w, id, db) <==> Guarded(w.exec, SqlSplitter.Statements(text), db)
  {
    var statements := SqlSplitter.Statements(text);
    var states := TraceOf(w, id, db).states;
    forall k | 0 <= k <= |states|
      ensures Repeats(w.exec, statements, k, At(db, states, k)) <==> Whole(w, id, At(db, states, k)) == Whole(w, id, db)
    {
      if Repeats(w.exec, statements, k, At(db, states, k)) {
        GuardedBodyIsResumable(w, id, db, text, k);
      } else {
        UnrepeatableIsStuck(w, id, db, text, k);
      }
    }
  }

  lemma {:induction false} LifeSkips<DB>(w: World<DB>, entries: seq<string>, n: nat, applied: set<string>, db: DB, writes: nat)
    requires n <= |entries| && forall i | 0 <= i < n :: entries[i] in applied
    ensures LifeOf(w, entries, applied, db, writes) == LifeOf(w, entries[n..], applied, db, writes)
    decreases n
  {
    if n > 0 {
      LifeSkips(w, entries[1..], n - 1, applied, db, writes);
      assert entries[1..][n - 1..] == entries[n..];
    } else {
      assert entries[0..] == entries;
    }
  }

  /** The next entry to be applied. */
  ghost predicate IsNext(entries: seq<string>, applied: set<string>, n: nat) {
    n < |entries| && entries[n] !in applied && forall i | 0 <= i < n :: entries[i] in applied
  }

  /** From a stuck body no life ever finishes, records anything or changes the database. */
  lemma {:induction false} StuckForever<DB(!new)>(
    w: World<DB>, entries: seq<string>, n: nat, applied: set<string>, x: DB, budgets: seq<nat>)
    requires IsNext(entries, applied, n) && Stuck(w, entries[n], x)
    ensures var l := Lives(w, entries, applied, x, budgets); l.db == x && l.applied == applied && l.outcome != Finished
  {
    if budgets != [] {
      var m := |budgets| - 1;
      StuckForever(w, entries, n, applied, x, budgets[..m]);
      LifeSkips(w, entries, n, applied, x, budgets[m]);
      assert entries[n..][0] == entries[n];
    }
  }

  /**
   A process that dies after k writes of an ordinary body whose statements repeat
   or fail: if all done statements repeat, doing the body again comes to what it
   would have come to; if one does not, the migrations never finish again.
   */
  lemma InterruptedBodySticksExactlyWhen<DB(!new)>(
    w: World<DB>, entries: seq<string>, n: nat, applied: set<string>, db: DB, text: string, k: nat)
    requires IsNext(entries, applied, n) && w.migrations(entries[n]) == Sql(text)
    requires RepeatsOrFails(w.exec, SqlSplitter.Statements(text), db)
    requires Whole(w, entries[n], db).Some? && k <= |TraceOf(w, entries[n], db).states|
    ensures var x := At(db, TraceOf(w, entries[n], db).states, k);
            && LifeOf(w, entries, applied, db, k) == Life(x, applied, Died)
            && (Repeats(w.exec, SqlSplitter.Statements(text), k, x) ==> Whole(w, entries[n], x) == Whole(w, entries[n], db))
            && (!Repeats(w.exec, SqlSplitter.Statements(text), k, x) ==>
                  forall budgets :: Lives(w, entries, applied, x, budgets).outcome != Finished)
  {
    var x := At(db, TraceOf(w, entries[n], db).states, k);
    LifeSkips(w, entries, n, applied, db, k);
    assert entries[n..][0] == entries[n];
    if Repeats(w.exec, SqlSplitter.Statements(text), k, x) {
      GuardedBodyIsResumable(w, entries[n], db, text, k);
    } else {
      UnrepeatableIsStuck(w, entries[n], db, text, k);
      forall budgets
        ensures Lives(w, entries, applied, x, budgets).outcome != Finished
      {
        StuckForever(w, entries, n, applied, x, budgets);
      }
    }
  }

  // ------------------------------------------------------------- a small example

  /** The database as the set of its constraints: a delete that repeats, and an addition that works once. */
  function AddOnce(statement: string, db: set<string>): Option<set<string>> {
    if statement == "d" then Some(db)
    else if statement in db then None
    else Some(db + {statement})
  }

  const DELETE_THEN_ADD := World((id: string) => Sql("d;a"), AddOnce)

  lemma TwoStatements()
    ensures SqlSplitter.Statements("d;a") == ["d", "a"]
  {
    SqlSplitter.QuietAlone(SqlSplitter.Plain, "a");
    SqlSplitter.QuietThenCut(SqlSplitter.Plain, "d", "a");
    assert "d" + ";" + "a" == "d;a";
    TrimOfTrimmed("d");
    TrimOfTrimmed("a");
    SqlSplitter.KeptFirst("d", "d", ["a"]);
    SqlSplitter.KeptFirst("a", "a", []);
    assert ["a"] + [] == ["a"];
    assert ["d"] + ["a"] == ["d", "a"];
  }

  lemma AddsOnce(db: set<string>)
    requires "a" !in db
    ensures ExecAll(AddOnce, ["d", "a"], db) == Trace([db, db + {"a"}], true)
    ensures RepeatsOrFails(AddOnce, ["d", "a"], db)
    ensures !Repeats(AddOnce, ["d", "a"], 2, db + {"a"}) && Repeats(AddOnce, ["d", "a"], 1, db)
  {
    assert ["d", "a"][1..] == ["a"] && ["a"][1..] == [];
    assert ExecAll(AddOnce, ["a"], db) == Trace([db + {"a"}], true);
    assert [db] + [db + {"a"}] == [db, db + {"a"}];
    assert AddOnce(["d", "a"][1], db + {"a"}).None?;
  }

  /** Deleting duplicates and then adding a plain unique key: interrupted before its record, the migration never finishes. */
  lemma PlainAddSticks(db: set<string>)
    requires "a" !in db
    ensures Whole(DELETE_THEN_ADD, "005", db) == Some(db + {"a"})
    ensures LifeOf(DELETE_THEN_ADD, ["005"], {}, db, 2) == Life(db + {"a"}, {}, Died)
    ensures forall budgets :: Lives(DELETE_THEN_ADD, ["005"], {}, db + {"a"}, budgets).outcome != Finished
  {
    TwoStatements();
    AddsOnce(db);
    InterruptedBodySticksExactlyWhen(DELETE_THEN_ADD, ["005"], 0, {}, db, "d;a", 2);
  }
}
