/**
 What the resume checkpoint guarantees over every history of crashed, failed
 and finished attempts of migration 081, with any other changes to the tables
 in between.
 */
module EolHistory {
  import opened Text
  import opened EolRetained
  import opened EolStatements
  import opened EolResume

  // ------------------------------------------------------ one write at a time

  /** The checkpoint changes only from absent to empty to the digest of the tables at that moment. */
  predicate SoundWrite(w: World, p: State, q: State) {
    || q.mark == p.mark
    || (q.tables == p.tables && p.mark.Absent? && q.mark.Empty?)
    || (q.tables == p.tables && p.mark.Empty? && q.mark.Holds? && Print(w, p.tables) == Some(q.mark.digest))
  }

  ghost predicate Sound(w: World, s: State, writes: seq<State>) {
    forall i | 0 <= i < |writes| :: SoundWrite(w, At(s, writes, i), writes[i])
  }

  lemma SoundThen(w: World, s: State, a: seq<State>, b: seq<State>)
    requires Sound(w, s, a) && Sound(w, At(s, a, |a|), b)
    ensures Sound(w, s, a + b)
  {
    var t, all := At(s, a, |a|), a + b;
    forall i | 0 <= i < |all|
      ensures SoundWrite(w, At(s, all, i), all[i])
    {
      if i < |a| {
        assert SoundWrite(w, At(s, a, i), a[i]);
      } else {
        assert SoundWrite(w, At(t, b, i - |a|), b[i - |a|]);
      }
    }
  }

  lemma WrittenIsSound(w: World, s: State, e: Effect)
    ensures Sound(w, s, Written(s, e).writes)
    ensures End(s, Written(s, e)).mark == s.mark
  {
  }

  lemma StatementIsSound(w: World, p: Plan, s: State)
    ensures Sound(w, s, Statement(w, p, s).writes)
  {
    if p.Do? && !(p.gated && !w.gate(s.tables)) {
      var a := if p.guarded then Record(w, s) else Only(true);
      assert Sound(w, s, a.writes);
      if a.ok {
        var t := End(s, a);
        WrittenIsSound(w, t, w.exec(t.tables, p.text));
        SoundThen(w, s, a.writes, Written(t, w.exec(t.tables, p.text)).writes);
      }
    }
  }

  lemma {:induction false} BodyIsSound(w: World, plans: seq<Plan>, s: State)
    ensures Sound(w, s, Body(w, plans, s).writes)
  {
    if plans != [] {
      var n := |plans| - 1;
      var a := Body(w, plans[..n], s);
      BodyIsSound(w, plans[..n], s);
      if a.ok {
        StatementIsSound(w, plans[n], End(s, a));
        SoundThen(w, s, a.writes, Statement(w, plans[n], End(s, a)).writes);
      }
    }
  }

  lemma PreparedIsSound(w: World, s: State)
    ensures Sound(w, s, Prepared(w, s).writes)
    ensures End(s, Prepared(w, s)).mark == s.mark
  {
    var a := Written(s, w.mapping(s.tables));
    WrittenIsSound(w, s, w.mapping(s.tables));
    if a.ok {
      var t := End(s, a);
      WrittenIsSound(w, t, w.sources(t.tables));
      SoundThen(w, s, a.writes, Sources(w, t).writes);
    }
  }

  lemma SetupIsSound(w: World, s: State)
    ensures Sound(w, s, Setup(w, s).writes)
    ensures End(s, Setup(w, s)).mark == s.mark
  {
    PreparedIsSound(w, s);
  }

  lemma AttemptIsSound(w: World, plans: seq<Plan>, s: State)
    ensures Sound(w, s, Attempt(w, plans, s).writes)
  {
    var a := Setup(w, s);
    var t := End(s, a);
    var b := Body(w, plans, t);
    AttemptParts(w, plans, s);
    SetupIsSound(w, s);
    BodyIsSound(w, plans, t);
    SoundThen(w, s, a.writes, b.writes);
    assert Final(w, End(s, Ran(a.writes + b.writes, b.ok))).writes == [];
    assert a.writes + b.writes + [] == a.writes + b.writes;
  }

  /** Once recorded, the digest never changes. */
  lemma {:induction false} MarkStays(w: World, s: State, writes: seq<State>, i: nat, j: nat)
    requires Sound(w, s, writes) && i <= j <= |writes| && At(s, writes, i).mark.Holds?
    ensures At(s, writes, j).mark == At(s, writes, i).mark
    decreases j
  {
    if i < j {
      MarkStays(w, s, writes, i, j - 1);
      assert SoundWrite(w, At(s, writes, j - 1), writes[j - 1]);
    }
  }

  /** A finished attempt has compared the tables it leaves with the checkpoint, if there is one. */
  lemma FinishedMatches(w: World, plans: seq<Plan>, s: State)
    requires Attempt(w, plans, s).ok
    ensures var e := End(s, Attempt(w, plans, s));
            LegacyGone(e.tables) && (e.mark.Absent? || (e.mark.Holds? && Print(w, e.tables) == Some(e.mark.digest)))
  {
    AttemptParts(w, plans, s);
    var a := Setup(w, s);
    var b := Body(w, plans, End(s, a));
    assert a.writes + b.writes + [] == a.writes + b.writes;
  }

  // ------------------------------------------------------------------ histories

  /** An attempt, crashed after that many writes or not, or any other change to the tables. */
  datatype Event = Try(crash: Option<nat>) | Edit(tables: Tables)

  /** The writes of an attempt that reach the disk. */
  function Durable(w: World, plans: seq<Plan>, s: State, crash: Option<nat>): (r: seq<State>)
    ensures r <= Attempt(w, plans, s).writes
  {
    var all := Attempt(w, plans, s).writes;
    if crash.Some? && crash.value <= |all| then all[..crash.value] else all
  }

  function After(w: World, plans: seq<Plan>, s: State, e: Event): State {
    match e
    case Edit(tables) => s.(tables := tables)
    case Try(crash) =>
      var d := Durable(w, plans, s, crash);
      At(s, d, |d|)
  }

  predicate Finishes(w: World, plans: seq<Plan>, s: State, e: Event) {
    e == Try(None) && Attempt(w, plans, s).ok
  }

  function Play(w: World, plans: seq<Plan>, s: State, events: seq<Event>): State {
    if events == [] then s
    else
      var n := |events| - 1;
      After(w, plans, Play(w, plans, s, events[..n]), events[n])
  }

  lemma DurableIsSound(w: World, plans: seq<Plan>, s: State, crash: Option<nat>)
    ensures Sound(w, s, Durable(w, plans, s, crash))
  {
    AttemptIsSound(w, plans, s);
    var all, d := Attempt(w, plans, s).writes, Durable(w, plans, s, crash);
    forall i | 0 <= i < |d|
      ensures SoundWrite(w, At(s, d, i), d[i])
    {
      assert At(s, d, i) == At(s, all, i) && d[i] == all[i];
    }
  }

  lemma EventKeepsMark(w: World, plans: seq<Plan>, s: State, e: Event)
    requires s.mark.Holds?
    ensures After(w, plans, s, e).mark == s.mark
  {
    if e.Try? {
      var d := Durable(w, plans, s, e.crash);
      DurableIsSound(w, plans, s, e.crash);
      MarkStays(w, s, d, 0, |d|);
    }
  }

  /** The checkpoint is write-once over every history of crashes, failures, retries and edits. */
  lemma {:induction false} CheckpointIsWriteOnce(w: World, plans: seq<Plan>, s: State, events: seq<Event>)
    requires s.mark.Holds?
    ensures Play(w, plans, s, events).mark == s.mark
  {
    if events != [] {
      var n := |events| - 1;
      CheckpointIsWriteOnce(w, plans, s, events[..n]);
      EventKeepsMark(w, plans, Play(w, plans, s, events[..n]), events[n]);
    }
  }

  /** The write that records a digest, within a sound run of writes. */
  lemma {:induction false} RecordingWrite(w: World, s: State, writes: seq<State>, n: nat) returns (k: nat)
    requires Sound(w, s, writes) && n <= |writes| && !s.mark.Holds? && At(s, writes, n).mark.Holds?
    ensures k < n && At(s, writes, k).mark.Empty? && writes[k].mark == At(s, writes, n).mark
    ensures writes[k].tables == At(s, writes, k).tables
    ensures Print(w, writes[k].tables) == Some(writes[k].mark.digest)
    decreases n
  {
    assert SoundWrite(w, At(s, writes, n - 1), writes[n - 1]);
    if At(s, writes, n - 1).mark.Holds? {
      k := RecordingWrite(w, s, writes, n - 1);
    } else {
      k := n - 1;
    }
  }

  /** The event of a history, and the write of that event, that recorded the digest. */
  lemma {:induction false} RecordingEvent(w: World, plans: seq<Plan>, s: State, events: seq<Event>) returns (i: nat, k: nat)
    requires !s.mark.Holds? && Play(w, plans, s, events).mark.Holds?
    ensures i < |events| && events[i].Try?
    ensures var p := Play(w, plans, s, events[..i]);
            var d := Durable(w, plans, p, events[i].crash);
            && k < |d| && !At(p, d, k).mark.Holds?
            && d[k].tables == At(p, d, k).tables
            && d[k].mark == Play(w, plans, s, events).mark
            && Print(w, d[k].tables) == Some(d[k].mark.digest)
  {
    var n := |events| - 1;
    var p := Play(w, plans, s, events[..n]);
    if p.mark.Holds? {
      i, k := RecordingEvent(w, plans, s, events[..n]);
      assert events[..n][..i] == events[..i];
      EventKeepsMark(w, plans, p, events[n]);
    } else {
      i := n;
      var d := Durable(w, plans, p, events[n].crash);
      DurableIsSound(w, plans, p, events[n].crash);
      k := RecordingWrite(w, p, d, |d|);
    }
  }

  /**
   Whatever happened before, an attempt that finishes with a checkpoint leaves
   exactly the retained rows of the moment the checkpoint was first recorded.
   */
  lemma FinishedRunKeepsRetainedRows(w: World, plans: seq<Plan>, s: State, events: seq<Event>) returns (i: nat, k: nat)
    requires Faithful(w.hasher) && PlainNames(w.names)
    requires !s.mark.Holds? && events != []
    requires Finishes(w, plans, Play(w, plans, s, events[..|events| - 1]), events[|events| - 1])
    requires Play(w, plans, s, events).mark.Holds?
    ensures i < |events| && events[i].Try?
    ensures var p := Play(w, plans, s, events[..i]);
            var d := Durable(w, plans, p, events[i].crash);
            var e := Play(w, plans, s, events);
            && k < |d| && !At(p, d, k).mark.Holds? && d[k].mark == e.mark
            && HasAll(d[k].tables, w.names) && HasAll(e.tables, w.names)
            && Sections(d[k].tables, w.names) == Sections(e.tables, w.names)
            && LegacyGone(e.tables)
  {
    i, k := RecordingEvent(w, plans, s, events);
    FinishedMatches(w, plans, Play(w, plans, s, events[..|events| - 1]));
    var p := Play(w, plans, s, events[..i]);
    FingerprintTellsRowsApart(w.hasher, w.names,
                              Durable(w, plans, p, events[i].crash)[k].tables, Play(w, plans, s, events).tables);
  }

  /** Of each of the ten tables, the rows without the legacy columns are what they were when the checkpoint was recorded. */
  lemma FinishedRunKeepsTenTables(w: World, plans: seq<Plan>, s: State, events: seq<Event>) returns (i: nat, k: nat)
    requires Faithful(w.hasher) && w.names == HashedTables
    requires !s.mark.Holds? && events != []
    requires Finishes(w, plans, Play(w, plans, s, events[..|events| - 1]), events[|events| - 1])
    requires Play(w, plans, s, events).mark.Holds?
    ensures i < |events| && events[i].Try?
    ensures var p := Play(w, plans, s, events[..i]);
            var d := Durable(w, plans, p, events[i].crash);
            k < |d| && !At(p, d, k).mark.Holds? && SameRetainedRows(d[k].tables, Play(w, plans, s, events).tables)
  {
    HashedTablesArePlain();
    i, k := FinishedRunKeepsRetainedRows(w, plans, s, events);
    var d := Durable(w, plans, Play(w, plans, s, events[..i]), events[i].crash);
    SectionsGiveRows(d[k].tables, Play(w, plans, s, events).tables, w.names);
  }

  ghost predicate SameRetainedRows(a: Tables, b: Tables) {
    forall name | name in HashedTables ::
      name in a && name in b && RetainedRows(a[name], Legacy(name)) == RetainedRows(b[name], Legacy(name))
  }

  lemma SectionsGiveRows(a: Tables, b: Tables, names: seq<string>)
    requires HasAll(a, names) && HasAll(b, names) && Sections(a, names) == Sections(b, names)
    ensures forall name | name in names ::
              name in a && name in b && RetainedRows(a[name], Legacy(name)) == RetainedRows(b[name], Legacy(name))
  {
    forall name | name in names
      ensures name in a && name in b && RetainedRows(a[name], Legacy(name)) == RetainedRows(b[name], Legacy(name))
    {
      var i :| 0 <= i < |names| && names[i] == name;
      assert Sections(a, names)[i] == Sections(b, names)[i];
    }
  }

  // ------------------------------------------- when there is a checkpoint at all

  predicate Guards(p: Plan) {
    p.Do? && p.guarded
  }

  lemma StatementMark(w: World, p: Plan, s: State)
    requires Statement(w, p, s).ok
    ensures var e := End(s, Statement(w, p, s)); e.mark.Absent? <==> s.mark.Absent? && !Guards(p)
    ensures var e := End(s, Statement(w, p, s)); e.mark.Empty? ==> s.mark.Empty?
  {
    if p.Do? {
      var a := if p.guarded then Record(w, s) else Only(true);
      var t := End(s, a);
      WrittenIsSound(w, t, w.exec(t.tables, p.text));
    }
  }

  lemma {:induction false} BodyMark(w: World, plans: seq<Plan>, s: State)
    requires Body(w, plans, s).ok
    ensures var e := End(s, Body(w, plans, s));
            e.mark.Absent? <==> s.mark.Absent? && forall i | 0 <= i < |plans| :: !Guards(plans[i])
  {
    if plans != [] {
      var n := |plans| - 1;
      BodyMark(w, plans[..n], s);
      StatementMark(w, plans[n], End(s, Body(w, plans[..n], s)));
      assert forall i | 0 <= i < n :: plans[..n][i] == plans[i];
    }
  }

  /** A finished attempt has a checkpoint exactly when there was one or a statement drops a view. */
  lemma FinishedHasCheckpointExactlyWhen(w: World, plans: seq<Plan>, s: State)
    requires Attempt(w, plans, s).ok
    ensures End(s, Attempt(w, plans, s)).mark.Holds? <==>
            s.mark.Holds? || exists i | 0 <= i < |plans| :: Guards(plans[i])
  {
    AttemptParts(w, plans, s);
    FinishedMatches(w, plans, s);
    SetupIsSound(w, s);
    var a := Setup(w, s);
    var b := Body(w, plans, End(s, a));
    BodyMark(w, plans, End(s, a));
    assert a.writes + b.writes + [] == a.writes + b.writes;
  }

  // ------------------------------------------------ a crash inside the recording

  /** With the table created but empty, the first checkpoint of every attempt fails before any write. */
  lemma EmptyCheckpointStops(w: World, plans: seq<Plan>, s: State)
    requires s.mark.Empty?
    ensures Attempt(w, plans, s) == Only(false)
  {
  }

  /** From then on nothing is ever written by the migration, and no attempt finishes. */
  lemma {:induction false} EmptyCheckpointIsForever(w: World, plans: seq<Plan>, s: State, events: seq<Event>)
    requires s.mark.Empty?
    ensures Play(w, plans, s, events).mark.Empty?
    ensures forall e :: !Finishes(w, plans, Play(w, plans, s, events), e)
  {
    if events != [] {
      var n := |events| - 1;
      EmptyCheckpointIsForever(w, plans, s, events[..n]);
      EmptyCheckpointStops(w, plans, Play(w, plans, s, events[..n]));
    }
    EmptyCheckpointStops(w, plans, Play(w, plans, s, events));
  }

  /** Every first recording passes through that state: a crash at that write can never be resumed. */
  lemma CrashWhileRecordingNeverResumes(w: World, plans: seq<Plan>, s: State) returns (k: nat)
    requires s.mark.Absent? && End(s, Attempt(w, plans, s)).mark.Holds?
    ensures k <= |Attempt(w, plans, s).writes|
    ensures After(w, plans, s, Try(Some(k))).mark.Empty?
    ensures forall events, e :: !Finishes(w, plans, Play(w, plans, After(w, plans, s, Try(Some(k))), events), e)
  {
    var writes := Attempt(w, plans, s).writes;
    AttemptIsSound(w, plans, s);
    k := RecordingWrite(w, s, writes, |writes|);
    var wedged := After(w, plans, s, Try(Some(k)));
    forall events, e
      ensures !Finishes(w, plans, Play(w, plans, wedged, events), e)
    {
      EmptyCheckpointIsForever(w, plans, wedged, events);
    }
  }
}
