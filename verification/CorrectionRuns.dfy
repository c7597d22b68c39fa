/**
 The archive-mapping correction inside the migration runner. Migration 083 is the
 correction alone; 081 makes it on its way, goes on with many other writes and may
 fail. The runner's database is arbitrary; `view` gives its archive tables, which
 are compared without the time of the gate.
 */
module CorrectionRuns {
  import opened Text
  import opened ArchiveMapping
  import opened MigrationRunner

  /** The table a correction leaves, as one value. */
  ghost function Correction(t: Tables, d: Digests, now: int): (t': Tables)
    requires Keyed(t.current) && Acceptable(t, d)
    ensures Corrected(t, t', d, now)
  {
    var t' := Tables(CorrectedRows(t, d), SavedEntries(t, d), Some(now));
    CorrectionRows(t, t', d);
    t'
  }

  ghost function CorrectedRows(t: Tables, d: Digests): (r: seq<Artifact>)
    requires AllPrepared(t, d, |t.current|)
    ensures |r| == |t.current|
    ensures forall i | 0 <= i < |r| :: Prepared(t, d, i) && r[i] == MovedRow(t, t.current[i], d)
  {
    seq(|t.current|, i requires 0 <= i < |t.current| => assert Prepared(t, d, i); MovedRow(t, t.current[i], d))
  }

  ghost function SavedOf(t: Tables, d: Digests, id: string): Backup
    requires Acceptable(t, d) && id in t.backup
  {
    assert EntryValid(t, d, id);
    var i := RowOf(t.current, id);
    assert Prepared(t, d, i);
    SavedEntry(t, t.current[i], d)
  }

  ghost function SavedEntries(t: Tables, d: Digests): (r: map<string, Backup>)
    requires Acceptable(t, d)
    ensures r.Keys == t.backup.Keys && forall id | id in t.backup :: r[id] == SavedOf(t, d, id)
  {
    map id | id in t.backup :: SavedOf(t, d, id)
  }

  lemma CorrectionRow(t: Tables, t': Tables, d: Digests, i: nat)
    requires Keyed(t.current) && Acceptable(t, d) && |t'.current| == |t.current| && i < |t.current|
    requires Prepared(t, d, i) && t'.current[i] == MovedRow(t, t.current[i], d)
    requires var id := t.current[i].id;
             id in t.backup ==> id in t'.backup && t'.backup[id] == SavedOf(t, d, id)
    ensures RowCorrected(t, t', d, i)
  {
    if BackedUp(t, t.current[i]) {
      assert EntryValid(t, d, t.current[i].id);
      assert RowOf(t.current, t.current[i].id) == i;
    }
  }

  lemma CorrectionRows(t: Tables, t': Tables, d: Digests)
    requires Keyed(t.current) && Acceptable(t, d)
    requires |t'.current| == |t.current| && t'.backup.Keys == t.backup.Keys
    requires forall i | 0 <= i < |t.current| :: Prepared(t, d, i) && t'.current[i] == MovedRow(t, t.current[i], d)
    requires forall id | id in t.backup :: t'.backup[id] == SavedOf(t, d, id)
    ensures forall i | 0 <= i < |t.current| :: RowCorrected(t, t', d, i)
  {
    forall i | 0 <= i < |t.current|
      ensures RowCorrected(t, t', d, i)
    {
      assert Prepared(t, d, i);
      CorrectionRow(t, t', d, i);
    }
  }

  lemma KeyedAgain(t: Tables, t': Tables, d: Digests, now: int)
    requires Keyed(t.current) && Acceptable(t, d) && Corrected(t, t', d, now)
    ensures Keyed(t'.current)
  {
    forall i, j | 0 <= i < j < |t'.current|
      ensures t'.current[i].id != t'.current[j].id
    {
      assert RowCorrected(t, t', d, i) && RowCorrected(t, t', d, j);
    }
  }

  // ---------------------------------------------------------- without the gate

  function Bare(t: Tables): Tables {
    t.(gate := None)
  }

  ghost predicate Ready(t: Tables, d: Digests) {
    Keyed(t.current) && Acceptable(t, d)
  }

  /** What every correction of a table leaves, whenever it is made. */
  ghost function Target(t: Tables, d: Digests): Tables
    requires Ready(t, d)
  {
    Bare(Correction(t, d, 0))
  }

  lemma CorrectedWithoutGate(t: Tables, u: Tables, t': Tables, d: Digests, now: int)
    requires Acceptable(t, d) && Bare(u) == Bare(t) && Acceptable(u, d) && Corrected(t, t', d, now)
    ensures Corrected(u, t', d, now)
  {
    forall i | 0 <= i < |u.current|
      ensures RowCorrected(u, t', d, i)
    {
      assert RowCorrected(t, t', d, i) && Prepared(t, d, i) && Prepared(u, d, i);
    }
  }

  lemma AcceptableWithoutGate(t: Tables, u: Tables, d: Digests)
    requires Acceptable(t, d) && Bare(u) == Bare(t)
    ensures Acceptable(u, d)
  {
    forall id | id in u.backup
      ensures EntryValid(u, d, id)
    {
      assert EntryValid(t, d, id);
    }
    forall i | 0 <= i < |u.current|
      ensures Prepared(u, d, i)
    {
      assert Prepared(t, d, i);
    }
    forall i, j | 0 <= i < j < |u.current|
      ensures !Collide(u, d, i, j)
    {
      assert Prepared(t, d, i) && Prepared(t, d, j) && !Collide(t, d, i, j);
    }
  }

  /** A correction at any time leaves the target. */
  lemma CorrectedIsTarget(t: Tables, t': Tables, d: Digests, now: int)
    requires Ready(t, d) && Corrected(t, t', d, now)
    ensures Bare(t') == Target(t, d)
  {
    var zero := t'.(gate := Some(0));
    forall i | 0 <= i < |t.current|
      ensures RowCorrected(t, zero, d, i)
    {
      assert RowCorrected(t, t', d, i) && Prepared(t, d, i);
    }
    CorrectedIsUnique(t, zero, Correction(t, d, 0), d, 0);
  }

  /** Tables that differ in the gate only have the same target. */
  lemma SameTarget(t: Tables, u: Tables, d: Digests)
    requires Ready(t, d) && Bare(u) == Bare(t)
    ensures Ready(u, d) && Target(u, d) == Target(t, d)
  {
    assert u.current == t.current;
    AcceptableWithoutGate(t, u, d);
    CorrectedWithoutGate(t, u, Correction(t, d, 0), d, 0);
    CorrectedIsTarget(u, Correction(t, d, 0), d, 0);
  }

  /** A table at the target is corrected to itself. */
  lemma TargetAgain(t: Tables, u: Tables, d: Digests)
    requires Ready(t, d) && Bare(u) == Target(t, d)
    ensures Ready(u, d) && Target(u, d) == Target(t, d)
  {
    var t' := Correction(t, d, 0);
    CorrectionIsIdempotent(t, t', d, 0, 0);
    KeyedAgain(t, t', d, 0);
    CorrectedIsTarget(t', t'.(gate := Some(0)), d, 0);
    SameTarget(t', u, d);
  }

  // ------------------------------------------------------------- correcting bodies

  /** The archive tables are still those before, or those after the one correction. */
  ghost predicate OnCourse(t: Tables, u: Tables, d: Digests)
    requires Ready(t, d)
  {
    Bare(u) == Bare(t) || Bare(u) == Target(t, d)
  }

  /** A trace that corrects the tables at some write, leaves them alone otherwise, and has corrected them when it succeeds. */
  ghost predicate CorrectingTrace<DB(!new)>(view: DB -> Tables, d: Digests, db: DB, tr: Trace<DB>)
    requires Ready(view(db), d)
  {
    && (forall i | 0 <= i < |tr.states| :: OnCourse(view(db), view(tr.states[i]), d))
    && (forall i, j | 0 <= i < j < |tr.states| && Bare(view(tr.states[i])) == Target(view(db), d) ::
          Bare(view(tr.states[j])) == Target(view(db), d))
    && (tr.ok ==> Bare(view(End(db, tr))) == Target(view(db), d))
  }

  ghost predicate Corrects<DB(!new)>(w: World<DB>, id: string, view: DB -> Tables, d: Digests) {
    forall db | Ready(view(db), d) :: CorrectingTrace(view, d, db, TraceOf(w, id, db))
  }

  /** A body that has nothing to do with the archive tables. */
  ghost predicate LeavesAlone<DB(!new)>(w: World<DB>, id: string, view: DB -> Tables) {
    forall db, i | 0 <= i < |TraceOf(w, id, db).states| :: Bare(view(TraceOf(w, id, db).states[i])) == Bare(view(db))
  }

  ghost predicate Known<DB(!new)>(w: World<DB>, id: string, view: DB -> Tables, d: Digests) {
    Corrects(w, id, view, d) || LeavesAlone(w, id, view)
  }

  ghost predicate AllKnown<DB(!new)>(w: World<DB>, entries: seq<string>, view: DB -> Tables, d: Digests) {
    forall i | 0 <= i < |entries| :: Known(w, entries[i], view, d)
  }

  /** Migration 083: the correction in one transaction, at some time, or an error and no change. */
  ghost predicate IsCorrection<DB(!new)>(view: DB -> Tables, d: Digests, db: DB, tr: Trace<DB>)
    requires Ready(view(db), d)
  {
    || tr == Trace([], false)
    || (tr.ok && |tr.states| == 1 && exists now :: Corrected(view(db), view(tr.states[0]), d, now))
  }

  lemma CorrectionCorrects<DB(!new)>(w: World<DB>, id: string, view: DB -> Tables, d: Digests)
    requires forall db | Ready(view(db), d) :: IsCorrection(view, d, db, TraceOf(w, id, db))
    ensures Corrects(w, id, view, d)
  {
    forall db | Ready(view(db), d)
      ensures CorrectingTrace(view, d, db, TraceOf(w, id, db))
    {
      var tr := TraceOf(w, id, db);
      assert IsCorrection(view, d, db, tr);
      if tr.ok {
        var now :| Corrected(view(db), view(tr.states[0]), d, now);
        CorrectedIsTarget(view(db), view(tr.states[0]), d, now);
      }
    }
  }

  // ------------------------------------------------------------------------ lives

  /** A table on course is headed for the same target, and what is on course from there is on course. */
  lemma SameCourse(t: Tables, u: Tables, d: Digests)
    requires Ready(t, d) && OnCourse(t, u, d)
    ensures Ready(u, d) && Target(u, d) == Target(t, d)
  {
    if Bare(u) == Bare(t) {
      SameTarget(t, u, d);
    } else {
      TargetAgain(t, u, d);
    }
  }

  /** Along a correcting trace. */
  lemma CorrectingOnCourse<DB(!new)>(view: DB -> Tables, d: Digests, db: DB, tr: Trace<DB>, k: nat)
    requires Ready(view(db), d) && CorrectingTrace(view, d, db, tr) && k <= |tr.states|
    ensures OnCourse(view(db), view(At(db, tr.states, k)), d)
    ensures k == |tr.states| && tr.ok ==> Bare(view(At(db, tr.states, k))) == Target(view(db), d)
  {
  }

  lemma TraceOnCourse<DB(!new)>(w: World<DB>, id: string, view: DB -> Tables, d: Digests, db: DB, k: nat)
    requires Ready(view(db), d) && Known(w, id, view, d) && k <= |TraceOf(w, id, db).states|
    ensures var x := At(db, TraceOf(w, id, db).states, k);
            && OnCourse(view(db), view(x), d)
            && (k == |TraceOf(w, id, db).states| && TraceOf(w, id, db).ok && Corrects(w, id, view, d) ==> Bare(view(x)) == Target(view(db), d))
  {
    if Corrects(w, id, view, d) {
      assert CorrectingTrace(view, d, db, TraceOf(w, id, db));
      CorrectingOnCourse(view, d, db, TraceOf(w, id, db), k);
    }
  }

  /** Wherever one body is interrupted, from a table on course. */
  lemma BodyOnCourse<DB(!new)>(w: World<DB>, id: string, view: DB -> Tables, d: Digests, t: Tables, db: DB, k: nat)
    requires Ready(t, d) && OnCourse(t, view(db), d) && k <= |TraceOf(w, id, db).states| && Known(w, id, view, d)
    ensures var x := At(db, TraceOf(w, id, db).states, k);
            && OnCourse(t, view(x), d)
            && (Bare(view(db)) == Target(t, d) ==> Bare(view(x)) == Target(t, d))
            && (k == |TraceOf(w, id, db).states| && TraceOf(w, id, db).ok && Corrects(w, id, view, d) ==> Bare(view(x)) == Target(t, d))
  {
    SameCourse(t, view(db), d);
    TraceOnCourse(w, id, view, d, db, k);
  }

  /** The database's archive tables are on course from t. */
  ghost function CourseFrom<DB>(view: DB -> Tables, d: Digests, t: Tables): DB -> bool
    requires Ready(t, d)
  {
    (x: DB) => OnCourse(t, view(x), d)
  }

  /** They are corrected. */
  ghost function CorrectedFrom<DB>(view: DB -> Tables, d: Digests, t: Tables): DB -> bool
    requires Ready(t, d)
  {
    (x: DB) => Bare(view(x)) == Target(t, d)
  }

  ghost function Correcting<DB(!new)>(w: World<DB>, view: DB -> Tables, d: Digests): string -> bool {
    (id: string) => Corrects(w, id, view, d)
  }

  lemma KnownKeeps<DB(!new)>(w: World<DB>, id: string, view: DB -> Tables, d: Digests, t: Tables)
    requires Ready(t, d) && Known(w, id, view, d)
    ensures BodyKeeps(w, id, CourseFrom(view, d, t), CorrectedFrom(view, d, t), Corrects(w, id, view, d))
  {
    var inv, goal := CourseFrom(view, d, t), CorrectedFrom(view, d, t);
    forall x, k | inv(x) && 0 <= k <= |TraceOf(w, id, x).states|
      ensures StateKept(w, id, inv, goal, Corrects(w, id, view, d), x, k)
    {
      BodyOnCourse(w, id, view, d, t, x, k);
    }
  }

  lemma AllKnownKeep<DB(!new)>(w: World<DB>, entries: seq<string>, view: DB -> Tables, d: Digests, t: Tables)
    requires Ready(t, d) && AllKnown(w, entries, view, d)
    ensures AllKeep(w, entries, CourseFrom(view, d, t), CorrectedFrom(view, d, t), Correcting(w, view, d))
  {
    forall i | 0 <= i < |entries|
      ensures BodyKeeps(w, entries[i], CourseFrom(view, d, t), CorrectedFrom(view, d, t), Correcting(w, view, d)(entries[i]))
    {
      KnownKeeps(w, entries[i], view, d, t);
    }
  }

  /** A correcting entry that has been recorded in between. */
  ghost predicate NewlyCorrected<DB(!new)>(
    w: World<DB>, entries: seq<string>, view: DB -> Tables, d: Digests, before: set<string>, after: set<string>)
  {
    NewlyReached(entries, Correcting(w, view, d), before, after)
  }

  /**
   By 081, by 083 or by both, over any sequence of lives, each dying anywhere or
   failing: the archive tables are those before or those of a single correction,
   and the latter once a correcting entry is newly recorded.
   */
  lemma ManyCorrectionsAreOne<DB(!new)>(
    w: World<DB>, entries: seq<string>, view: DB -> Tables, d: Digests, applied: set<string>, db: DB, budgets: seq<nat>)
    requires Ready(view(db), d) && AllKnown(w, entries, view, d)
    ensures var l := Lives(w, entries, applied, db, budgets);
            && OnCourse(view(db), view(l.db), d)
            && (NewlyCorrected(w, entries, view, d, applied, l.applied) ==> Bare(view(l.db)) == Target(view(db), d))
  {
    var t := view(db);
    AllKnownKeep(w, entries, view, d, t);
    LivesKeep(w, entries, CourseFrom(view, d, t), CorrectedFrom(view, d, t), Correcting(w, view, d), applied, db, budgets);
  }

  /** A history whose last life finishes has corrected the tables, if a correcting entry was still to be applied. */
  lemma FinishedIsCorrected<DB(!new)>(
    w: World<DB>, entries: seq<string>, view: DB -> Tables, d: Digests, applied: set<string>, db: DB, budgets: seq<nat>, i: nat)
    requires Ready(view(db), d) && AllKnown(w, entries, view, d)
    requires i < |entries| && Corrects(w, entries[i], view, d) && entries[i] !in applied
    requires Lives(w, entries, applied, db, budgets).outcome == Finished
    ensures Bare(view(Lives(w, entries, applied, db, budgets).db)) == Target(view(db), d)
  {
    ManyCorrectionsAreOne(w, entries, view, d, applied, db, budgets);
    var before := Lives(w, entries, applied, db, budgets[..|budgets| - 1]);
    LifeKeepsRecords(w, entries, before.applied, before.db, budgets[|budgets| - 1]);
    assert Correcting(w, view, d)(entries[i]);
  }

  /** Once the tables are corrected, no later life of any history undoes it. */
  lemma CorrectionIsNeverUndone<DB(!new)>(
    w: World<DB>, entries: seq<string>, view: DB -> Tables, d: Digests, applied: set<string>, db: DB, budgets: seq<nat>, m: nat)
    requires Ready(view(db), d) && AllKnown(w, entries, view, d) && m <= |budgets|
    requires Bare(view(Lives(w, entries, applied, db, budgets[..m]).db)) == Target(view(db), d)
    ensures Bare(view(Lives(w, entries, applied, db, budgets).db)) == Target(view(db), d)
  {
    var t := view(db);
    AllKnownKeep(w, entries, view, d, t);
    LivesNeverLose(w, entries, CourseFrom(view, d, t), CorrectedFrom(view, d, t), Correcting(w, view, d), applied, db, budgets, m);
  }
}
