/**
 When an interrupted migration 081 can still finish. Once the checkpoint holds a
 digest, the mapping, the snapshots and the statements only drop legacy columns
 or repeat what is done; then it can finish exactly when the crash fell neither
 between creating the checkpoint table and filling it nor between the removals of
 the Discord columns.
 */
module EolResumption {
  import opened Text
  import opened EolRetained
  import opened EolStatements
  import opened EolResume
  import opened EolHistory

  ghost predicate EffectKeeps(w: World, d: string, e: Effect) {
    forall i | 0 <= i < |e.states| :: Print(w, e.states[i]) == Some(d)
  }

  /** On tables with this digest, nothing the runner calls changes the digest. */
  ghost predicate Keeps(w: World, plans: seq<Plan>, d: string) {
    forall t | Print(w, t) == Some(d) ::
      && EffectKeeps(w, d, w.mapping(t))
      && EffectKeeps(w, d, w.sources(t))
      && forall i | 0 <= i < |plans| && plans[i].Do? :: EffectKeeps(w, d, w.exec(t, plans[i].text))
  }

  // --------------------------------------------------- dropping legacy columns

  /** Nothing changes, or some legacy columns of one table are dropped. */
  ghost predicate DropsLegacy(t: Tables, u: Tables) {
    u == t || exists name, gone :: DropsFrom(t, u, name, gone)
  }

  ghost predicate DropsFrom(t: Tables, u: Tables, name: string, gone: set<string>) {
    name in t && gone <= Legacy(name) && u == t[name := DropColumns(t[name], gone)]
  }

  function StateAt(t: Tables, e: Effect, i: nat): Tables
    requires i <= |e.states|
  {
    Nth(t, e.states, i)
  }

  function Nth<T>(start: T, states: seq<T>, i: nat): T
    requires i <= |states|
  {
    if i == 0 then start else states[i - 1]
  }

  ghost predicate OnlyDropsLegacy(t: Tables, e: Effect) {
    forall i | 0 <= i < |e.states| :: DropsLegacy(StateAt(t, e, i), e.states[i])
  }

  lemma DropKeepsPrint(w: World, t: Tables, u: Tables)
    requires DropsLegacy(t, u)
    ensures Print(w, u) == Print(w, t)
  {
    if u != t {
      var name, gone :| DropsFrom(t, u, name, gone);
      DroppingLegacyKeepsFingerprint(w.hasher, w.names, t, name, gone);
    }
  }

  lemma StepKeepsPrint(w: World, t: Tables, e: Effect, n: nat)
    requires OnlyDropsLegacy(t, e) && n < |e.states|
    ensures Print(w, e.states[n]) == Print(w, StateAt(t, e, n))
  {
    var here := StateAt(t, e, n);
    assert DropsLegacy(here, e.states[n]);
    DropKeepsPrint(w, here, e.states[n]);
  }

  /** What no step changes is the same at all states. */
  lemma {:induction false} SameThroughout<T>(f: T -> Option<string>, start: T, states: seq<T>, n: nat)
    requires forall i | 0 <= i < |states| :: f(states[i]) == f(Nth(start, states, i))
    requires n <= |states|
    ensures f(Nth(start, states, n)) == f(start)
  {
    if n > 0 {
      SameThroughout(f, start, states, n - 1);
      assert f(states[n - 1]) == f(Nth(start, states, n - 1));
    }
  }

  lemma DropsKeepPrint(w: World, t: Tables, e: Effect, n: nat)
    requires OnlyDropsLegacy(t, e) && n <= |e.states|
    ensures Print(w, StateAt(t, e, n)) == Print(w, t)
  {
    var f := (x: Tables) => Print(w, x);
    forall i | 0 <= i < |e.states|
      ensures f(e.states[i]) == f(Nth(t, e.states, i))
    {
      StepKeepsPrint(w, t, e, i);
    }
    SameThroughout(f, t, e.states, n);
  }

  lemma DroppingEffectKeeps(w: World, d: string, t: Tables, e: Effect)
    requires Print(w, t) == Some(d) && OnlyDropsLegacy(t, e)
    ensures EffectKeeps(w, d, e)
  {
    forall i | 0 <= i < |e.states|
      ensures Print(w, e.states[i]) == Some(d)
    {
      var next := i + 1;
      assert StateAt(t, e, next) == e.states[i];
      DropsKeepPrint(w, t, e, next);
    }
  }

  /** From tables with this digest on, everything the runner calls only drops legacy columns. */
  ghost predicate OnlyDropsFrom(w: World, plans: seq<Plan>, d: string) {
    forall t | Print(w, t) == Some(d) ::
      && OnlyDropsLegacy(t, w.mapping(t))
      && OnlyDropsLegacy(t, w.sources(t))
      && forall i | 0 <= i < |plans| && plans[i].Do? :: OnlyDropsLegacy(t, w.exec(t, plans[i].text))
  }

  /** Dropping legacy columns is harmless to the checkpoint. */
  lemma LegacyDropsKeep(w: World, plans: seq<Plan>, d: string)
    requires OnlyDropsFrom(w, plans, d)
    ensures Keeps(w, plans, d)
  {
    forall t | Print(w, t) == Some(d)
      ensures EffectKeeps(w, d, w.mapping(t)) && EffectKeeps(w, d, w.sources(t))
      ensures forall i | 0 <= i < |plans| && plans[i].Do? :: EffectKeeps(w, d, w.exec(t, plans[i].text))
    {
      DroppingEffectKeeps(w, d, t, w.mapping(t));
      DroppingEffectKeeps(w, d, t, w.sources(t));
      forall i | 0 <= i < |plans| && plans[i].Do?
        ensures EffectKeeps(w, d, w.exec(t, plans[i].text))
      {
        DroppingEffectKeeps(w, d, t, w.exec(t, plans[i].text));
      }
    }
  }

  // ------------------------------------------------------------ one attempt

  /** If the checkpoint holds this digest, the tables have it. */
  predicate Agrees(w: World, d: string, s: State) {
    s.mark == Holds(d) ==> Print(w, s.tables) == Some(d)
  }

  ghost predicate AllAgree(w: World, d: string, s: State, writes: seq<State>) {
    Agrees(w, d, s) && forall i | 0 <= i < |writes| :: Agrees(w, d, writes[i])
  }

  lemma AgreeThen(w: World, d: string, s: State, a: seq<State>, b: seq<State>)
    requires AllAgree(w, d, s, a) && AllAgree(w, d, At(s, a, |a|), b)
    ensures AllAgree(w, d, s, a + b)
  {
  }

  lemma WrittenAgrees(w: World, d: string, s: State, e: Effect)
    requires Agrees(w, d, s) && (s.mark == Holds(d) ==> EffectKeeps(w, d, e))
    ensures AllAgree(w, d, s, Written(s, e).writes)
  {
  }

  lemma RecordAgrees(w: World, d: string, s: State)
    requires Agrees(w, d, s)
    ensures AllAgree(w, d, s, Record(w, s).writes)
  {
  }

  lemma StatementAgrees(w: World, plans: seq<Plan>, d: string, i: nat, s: State)
    requires Keeps(w, plans, d) && i < |plans| && Agrees(w, d, s)
    ensures AllAgree(w, d, s, Statement(w, plans[i], s).writes)
  {
    var p := plans[i];
    if p.Do? && !(p.gated && !w.gate(s.tables)) {
      var a := if p.guarded then Record(w, s) else Only(true);
      RecordAgrees(w, d, s);
      var t := End(s, a);
      WrittenAgrees(w, d, t, w.exec(t.tables, p.text));
      AgreeThen(w, d, s, a.writes, Written(t, w.exec(t.tables, p.text)).writes);
    }
  }

  lemma {:induction false} BodyAgrees(w: World, plans: seq<Plan>, d: string, n: nat, s: State)
    requires Keeps(w, plans, d) && n <= |plans| && Agrees(w, d, s)
    ensures AllAgree(w, d, s, Body(w, plans[..n], s).writes)
  {
    if n > 0 {
      var a := Body(w, plans[..n - 1], s);
      assert plans[..n][..n - 1] == plans[..n - 1];
      BodyAgrees(w, plans, d, n - 1, s);
      if a.ok {
        StatementAgrees(w, plans, d, n - 1, End(s, a));
        AgreeThen(w, d, s, a.writes, Statement(w, plans[n - 1], End(s, a)).writes);
      }
    }
  }

  lemma SetupAgrees(w: World, plans: seq<Plan>, d: string, s: State)
    requires Keeps(w, plans, d) && Agrees(w, d, s)
    ensures AllAgree(w, d, s, Setup(w, s).writes)
  {
    var a := Written(s, w.mapping(s.tables));
    WrittenAgrees(w, d, s, w.mapping(s.tables));
    var t := End(s, a);
    WrittenAgrees(w, d, t, w.sources(t.tables));
    AgreeThen(w, d, s, a.writes, Sources(w, t).writes);
  }

  /** Throughout an attempt, a checkpoint that holds the digest agrees with the tables. */
  lemma AttemptAgrees(w: World, plans: seq<Plan>, d: string, s: State)
    requires Keeps(w, plans, d) && Agrees(w, d, s)
    ensures AllAgree(w, d, s, Attempt(w, plans, s).writes)
  {
    var a := Setup(w, s);
    var t := End(s, a);
    var b := Body(w, plans, t);
    AttemptParts(w, plans, s);
    SetupAgrees(w, plans, d, s);
    assert plans[..|plans|] == plans;
    BodyAgrees(w, plans, d, |plans|, t);
    AgreeThen(w, d, s, a.writes, b.writes);
    assert Final(w, End(s, Ran(a.writes + b.writes, b.ok))).writes == [];
    assert a.writes + b.writes + [] == a.writes + b.writes;
  }

  /** A digest other than this one has not been recorded. */
  predicate OnlyThis(d: string, s: State) {
    s.mark.Holds? ==> s.mark.digest == d
  }

  // ------------------------------------------------------------- all histories

  /** Whatever else changes the tables in between leaves their digest alone. */
  ghost predicate EditsKeep(w: World, d: string, events: seq<Event>) {
    forall i | 0 <= i < |events| && events[i].Edit? :: Print(w, events[i].tables) == Some(d)
  }

  lemma {:induction false} HistoryAgrees(w: World, plans: seq<Plan>, d: string, s: State, events: seq<Event>)
    requires Keeps(w, plans, d) && EditsKeep(w, d, events) && Agrees(w, d, s)
    ensures Agrees(w, d, Play(w, plans, s, events))
  {
    if events != [] {
      var n := |events| - 1;
      assert forall i | 0 <= i < n :: events[..n][i] == events[i];
      HistoryAgrees(w, plans, d, s, events[..n]);
      var p := Play(w, plans, s, events[..n]);
      AttemptAgrees(w, plans, d, p);
    }
  }

  /** Once the digest is recorded, no checkpoint of any later attempt ever fails. */
  lemma RecordedCheckpointNeverFails(w: World, plans: seq<Plan>, d: string, s: State, events: seq<Event>, k: nat)
    requires Keeps(w, plans, d) && EditsKeep(w, d, events) && s.mark == Holds(d) && Agrees(w, d, s)
    requires k <= |Attempt(w, plans, Play(w, plans, s, events)).writes|
    ensures var p := Play(w, plans, s, events);
            var here := At(p, Attempt(w, plans, p).writes, k);
            here.mark == Holds(d) && Look(w, here).ok && Record(w, here).ok
  {
    var p := Play(w, plans, s, events);
    CheckpointIsWriteOnce(w, plans, s, events);
    HistoryAgrees(w, plans, d, s, events);
    AttemptAgrees(w, plans, d, p);
    AttemptIsSound(w, plans, p);
    MarkStays(w, p, Attempt(w, plans, p).writes, 0, k);
  }

  // ------------------------------------------------------- attempts that finish

  /** Tables with the digest, and all or none of the Discord columns. */
  ghost predicate Good(w: World, d: string, t: Tables) {
    Print(w, t) == Some(d) && !Partial(t)
  }

  ghost predicate EffectGood(w: World, d: string, e: Effect) {
    e.ok && forall i | 0 <= i < |e.states| :: Good(w, d, e.states[i])
  }

  /** What is called on good tables succeeds and leaves good tables; when the legacy columns are gone, validation passes. */
  ghost predicate SmoothAt(w: World, plans: seq<Plan>, d: string, t: Tables) {
    && EffectGood(w, d, w.mapping(t)) && EffectGood(w, d, w.sources(t))
    && (forall i | 0 <= i < |plans| && plans[i].Do? ::
          (plans[i].gated ==> w.gate(t)) && EffectGood(w, d, w.exec(t, plans[i].text)))
    && (LegacyGone(t) ==> w.valid(t) && w.schema(t))
  }

  ghost predicate Smooth(w: World, plans: seq<Plan>, d: string) {
    forall t | Good(w, d, t) :: SmoothAt(w, plans, d, t)
  }

  ghost predicate EffectGone(e: Effect, name: string) {
    forall i | 0 <= i < |e.states| :: NonePresent(e.states[i], name)
  }

  /** No statement brings the legacy columns of a table back. */
  ghost predicate KeepsGone(w: World, plans: seq<Plan>, d: string, name: string) {
    forall t, i | Good(w, d, t) && NonePresent(t, name) && 0 <= i < |plans| && plans[i].Do? :: EffectGone(w.exec(t, plans[i].text), name)
  }

  /** This statement removes what is left of them. */
  ghost predicate DropsAt(w: World, plans: seq<Plan>, d: string, name: string, j: nat) {
    && j < |plans| && plans[j].Do?
    && forall t | Good(w, d, t) :: NonePresent(StateAt(t, w.exec(t, plans[j].text), |w.exec(t, plans[j].text).states|), name)
  }

  ghost predicate Drops(w: World, plans: seq<Plan>, d: string, name: string) {
    KeepsGone(w, plans, d, name) && exists j :: DropsAt(w, plans, d, name, j)
  }

  /** The migration removes the legacy columns of both tables. */
  ghost predicate DropsBoth(w: World, plans: seq<Plan>, d: string) {
    Drops(w, plans, d, "stream_settings") && Drops(w, plans, d, "system_update_execution_hosts")
  }

  ghost predicate GoodState(w: World, d: string, s: State) {
    s.mark == Holds(d) && Good(w, d, s.tables)
  }

  ghost predicate AllGood(w: World, d: string, writes: seq<State>) {
    forall i | 0 <= i < |writes| :: GoodState(w, d, writes[i])
  }

  lemma WrittenGood(w: World, d: string, s: State, e: Effect)
    requires GoodState(w, d, s) && EffectGood(w, d, e)
    ensures Written(s, e).ok && AllGood(w, d, Written(s, e).writes) && GoodState(w, d, End(s, Written(s, e)))
    ensures End(s, Written(s, e)).tables == StateAt(s.tables, e, |e.states|)
  {
  }

  /** Recording again what is recorded changes nothing and passes. */
  lemma RecordGood(w: World, d: string, s: State)
    requires GoodState(w, d, s)
    ensures Record(w, s) == Ran([s, s], true)
  {
  }

  /** A guarded statement on good tables does what it does without the guard, after two writes that change nothing. */
  lemma GuardedGood(w: World, d: string, s: State, e: Effect)
    requires GoodState(w, d, s) && EffectGood(w, d, e)
    ensures var r := Ran([s, s] + Written(s, e).writes, Written(s, e).ok);
            r.ok && AllGood(w, d, r.writes) && GoodState(w, d, End(s, r)) && End(s, r) == End(s, Written(s, e))
  {
    WrittenGood(w, d, s, e);
  }

  lemma StatementIs(w: World, p: Plan, d: string, s: State)
    requires p.Do? && GoodState(w, d, s) && (p.gated ==> w.gate(s.tables))
    ensures var b := Written(s, w.exec(s.tables, p.text));
            Statement(w, p, s) == if p.guarded then Ran([s, s] + b.writes, b.ok) else b
  {
    RecordGood(w, d, s);
    var b := Written(s, w.exec(s.tables, p.text));
    assert [] + b.writes == b.writes;
  }

  lemma StatementGood(w: World, plans: seq<Plan>, d: string, i: nat, s: State)
    requires Smooth(w, plans, d) && i < |plans| && GoodState(w, d, s)
    ensures var r := Statement(w, plans[i], s); r.ok && AllGood(w, d, r.writes) && GoodState(w, d, End(s, r))
    ensures plans[i].Skip? ==> End(s, Statement(w, plans[i], s)) == s
    ensures plans[i].Do? ==>
              var e := w.exec(s.tables, plans[i].text); End(s, Statement(w, plans[i], s)).tables == StateAt(s.tables, e, |e.states|)
  {
    assert SmoothAt(w, plans, d, s.tables);
    if plans[i].Do? {
      StatementIs(w, plans[i], d, s);
      GuardedGood(w, d, s, w.exec(s.tables, plans[i].text));
      WrittenGood(w, d, s, w.exec(s.tables, plans[i].text));
    }
  }

  /** A statement keeps what is gone, and the one that drops it makes it so. */
  lemma StatementDrops(w: World, plans: seq<Plan>, d: string, i: nat, s: State, name: string)
    requires Smooth(w, plans, d) && i < |plans| && GoodState(w, d, s) && KeepsGone(w, plans, d, name)
    ensures NonePresent(s.tables, name) || DropsAt(w, plans, d, name, i) ==>
              NonePresent(End(s, Statement(w, plans[i], s)).tables, name)
  {
    StatementGood(w, plans, d, i, s);
    if plans[i].Do? && NonePresent(s.tables, name) {
      assert EffectGone(w.exec(s.tables, plans[i].text), name);
    }
  }

  lemma GoodThen(w: World, d: string, s: State, a: Ran, b: Ran)
    requires AllGood(w, d, a.writes) && AllGood(w, d, b.writes)
    ensures AllGood(w, d, a.writes + b.writes)
    ensures End(s, Ran(a.writes + b.writes, b.ok)) == End(End(s, a), b)
  {
  }

  lemma {:induction false} BodyGood(w: World, plans: seq<Plan>, d: string, n: nat, s: State)
    requires Smooth(w, plans, d) && n <= |plans| && GoodState(w, d, s)
    ensures var r := Body(w, plans[..n], s); r.ok && AllGood(w, d, r.writes) && GoodState(w, d, End(s, r))
  {
    if n > 0 {
      var a := Body(w, plans[..n - 1], s);
      assert plans[..n][..n - 1] == plans[..n - 1];
      BodyGood(w, plans, d, n - 1, s);
      StatementGood(w, plans, d, n - 1, End(s, a));
      GoodThen(w, d, s, a, Statement(w, plans[n - 1], End(s, a)));
    }
  }

  lemma BodyUnfolds(w: World, plans: seq<Plan>, n: nat, s: State)
    requires 0 < n <= |plans| && Body(w, plans[..n - 1], s).ok
    ensures End(s, Body(w, plans[..n], s))
         == End(End(s, Body(w, plans[..n - 1], s)), Statement(w, plans[n - 1], End(s, Body(w, plans[..n - 1], s))))
  {
    assert plans[..n][..n - 1] == plans[..n - 1];
  }

  lemma {:induction false} BodyDrops(w: World, plans: seq<Plan>, d: string, n: nat, s: State, name: string, j: nat)
    requires Smooth(w, plans, d) && n <= |plans| && GoodState(w, d, s) && KeepsGone(w, plans, d, name)
    requires DropsAt(w, plans, d, name, j) && j < n
    ensures NonePresent(End(s, Body(w, plans[..n], s)).tables, name)
  {
    BodyGood(w, plans, d, n - 1, s);
    BodyUnfolds(w, plans, n, s);
    if j < n - 1 {
      BodyDrops(w, plans, d, n - 1, s, name, j);
    }
    StatementDrops(w, plans, d, n - 1, End(s, Body(w, plans[..n - 1], s)), name);
  }

  lemma BodyLeavesGone(w: World, plans: seq<Plan>, d: string, s: State)
    requires Smooth(w, plans, d) && DropsBoth(w, plans, d) && GoodState(w, d, s)
    ensures LegacyGone(End(s, Body(w, plans, s)).tables)
  {
    assert plans[..|plans|] == plans;
    var i :| DropsAt(w, plans, d, "stream_settings", i);
    BodyDrops(w, plans, d, |plans|, s, "stream_settings", i);
    var j :| DropsAt(w, plans, d, "system_update_execution_hosts", j);
    BodyDrops(w, plans, d, |plans|, s, "system_update_execution_hosts", j);
  }

  lemma SetupGood(w: World, plans: seq<Plan>, d: string, s: State)
    requires Smooth(w, plans, d) && GoodState(w, d, s)
    ensures var r := Setup(w, s); r.ok && AllGood(w, d, r.writes) && GoodState(w, d, End(s, r))
  {
    assert SmoothAt(w, plans, d, s.tables);
    var a := Written(s, w.mapping(s.tables));
    WrittenGood(w, d, s, w.mapping(s.tables));
    var t := End(s, a);
    assert SmoothAt(w, plans, d, t.tables);
    WrittenGood(w, d, t, w.sources(t.tables));
    GoodThen(w, d, s, a, Sources(w, t));
  }

  /** From good tables under the recorded checkpoint an attempt finishes, and every state on its way is good. */
  lemma GoodAttemptFinishes(w: World, plans: seq<Plan>, d: string, s: State)
    requires Smooth(w, plans, d) && DropsBoth(w, plans, d) && GoodState(w, d, s)
    ensures Attempt(w, plans, s).ok && AllGood(w, d, Attempt(w, plans, s).writes)
  {
    AttemptParts(w, plans, s);
    SetupGood(w, plans, d, s);
    var a := Setup(w, s);
    var t := End(s, a);
    var b := Body(w, plans, t);
    assert plans[..|plans|] == plans;
    BodyGood(w, plans, d, |plans|, t);
    BodyLeavesGone(w, plans, d, t);
    GoodThen(w, d, s, a, b);
    var u := End(t, b);
    assert SmoothAt(w, plans, d, u.tables);
    assert Final(w, u) == Only(true);
    assert a.writes + b.writes + [] == a.writes + b.writes;
  }

  // ------------------------------------------------------- attempts that cannot

  ghost predicate SameColumns(t: Tables, u: Tables) {
    ("stream_settings" in t <==> "stream_settings" in u)
    && ("stream_settings" in t ==> u["stream_settings"].columns == t["stream_settings"].columns)
  }

  /** The archive mapping has nothing to do with the columns of stream_settings. */
  ghost predicate MappingKeepsColumns(w: World) {
    forall t, i | 0 <= i < |w.mapping(t).states| :: SameColumns(t, w.mapping(t).states[i])
  }

  /** With only some of the Discord columns left, an attempt stops before the statements and leaves it so. */
  lemma PartialStops(w: World, plans: seq<Plan>, s: State)
    requires MappingKeepsColumns(w) && Partial(s.tables)
    ensures !Attempt(w, plans, s).ok
    ensures forall i | 0 <= i < |Attempt(w, plans, s).writes| :: Partial(Attempt(w, plans, s).writes[i].tables)
  {
    AttemptParts(w, plans, s);
    var a := Written(s, w.mapping(s.tables));
    forall i | 0 <= i < |a.writes|
      ensures Partial(a.writes[i].tables)
    {
      assert SameColumns(s.tables, w.mapping(s.tables).states[i]);
    }
    assert Partial(End(s, a).tables);
    assert a.writes + [] == a.writes;
  }

  ghost predicate OnlyTries(events: seq<Event>) {
    forall i | 0 <= i < |events| :: events[i].Try?
  }

  /** However often it is tried, however each attempt is interrupted. */
  lemma {:induction false} PartialIsForever(w: World, plans: seq<Plan>, s: State, events: seq<Event>)
    requires MappingKeepsColumns(w) && Partial(s.tables) && OnlyTries(events)
    ensures Partial(Play(w, plans, s, events).tables)
  {
    if events != [] {
      var n := |events| - 1;
      assert forall i | 0 <= i < n :: events[..n][i] == events[i];
      PartialIsForever(w, plans, s, events[..n]);
      PartialStops(w, plans, Play(w, plans, s, events[..n]));
    }
  }

  lemma {:induction false} GoodIsForever(w: World, plans: seq<Plan>, d: string, s: State, events: seq<Event>)
    requires Smooth(w, plans, d) && DropsBoth(w, plans, d) && GoodState(w, d, s) && OnlyTries(events)
    ensures GoodState(w, d, Play(w, plans, s, events))
  {
    if events != [] {
      var n := |events| - 1;
      assert forall i | 0 <= i < n :: events[..n][i] == events[i];
      GoodIsForever(w, plans, d, s, events[..n]);
      GoodAttemptFinishes(w, plans, d, Play(w, plans, s, events[..n]));
    }
  }

  // ------------------------------------------------------------- the exact condition

  /** After some attempts, crashed or failed, an attempt finishes. */
  ghost predicate CanFinish(w: World, plans: seq<Plan>, s: State) {
    exists events: seq<Event>, e: Event :: OnlyTries(events) && Finishes(w, plans, Play(w, plans, s, events), e)
  }

  /** After whatever attempts, crashed or failed, the next uninterrupted attempt finishes. */
  ghost predicate AlwaysFinishes(w: World, plans: seq<Plan>, s: State) {
    forall events: seq<Event> | OnlyTries(events) :: Finishes(w, plans, Play(w, plans, s, events), Try(None))
  }

  /** The checkpoint table is created but empty, or only some of the Discord columns are left. */
  predicate Wedged(s: State) {
    s.mark.Empty? || Partial(s.tables)
  }

  lemma WedgedNeverFinishes(w: World, plans: seq<Plan>, s: State)
    requires MappingKeepsColumns(w) && Wedged(s)
    ensures !CanFinish(w, plans, s)
  {
    forall events: seq<Event>, e: Event | OnlyTries(events)
      ensures !Finishes(w, plans, Play(w, plans, s, events), e)
    {
      if s.mark.Empty? {
        EmptyCheckpointIsForever(w, plans, s, events);
      } else {
        PartialIsForever(w, plans, s, events);
        PartialStops(w, plans, Play(w, plans, s, events));
      }
    }
  }

  lemma GoodAlwaysFinishes(w: World, plans: seq<Plan>, d: string, s: State)
    requires Smooth(w, plans, d) && DropsBoth(w, plans, d) && GoodState(w, d, s)
    ensures AlwaysFinishes(w, plans, s) && CanFinish(w, plans, s)
  {
    forall events: seq<Event> | OnlyTries(events)
      ensures Finishes(w, plans, Play(w, plans, s, events), Try(None))
    {
      GoodIsForever(w, plans, d, s, events);
      GoodAttemptFinishes(w, plans, d, Play(w, plans, s, events));
    }
    assert OnlyTries([]);
    assert Finishes(w, plans, Play(w, plans, s, []), Try(None));
  }

  /**
   After every history of attempts, each crashed after any of its writes, failed
   or finished, that got as far as the checkpoint table: if the runner's own steps
   keep the recorded digest and work on good tables, the migration can still finish
   exactly when it is not wedged, and then it finishes however often it crashes.
   */
  lemma CrashIsResumableExactlyWhen(w: World, plans: seq<Plan>, d: string, s: State, events: seq<Event>)
    requires Keeps(w, plans, d) && Smooth(w, plans, d) && DropsBoth(w, plans, d) && MappingKeepsColumns(w)
    requires EditsKeep(w, d, events) && Agrees(w, d, s)
    requires !Play(w, plans, s, events).mark.Absent? && OnlyThis(d, Play(w, plans, s, events))
    ensures var p := Play(w, plans, s, events);
            (CanFinish(w, plans, p) <==> !Wedged(p)) && (AlwaysFinishes(w, plans, p) <==> !Wedged(p))
  {
    var p := Play(w, plans, s, events);
    HistoryAgrees(w, plans, d, s, events);
    if Wedged(p) {
      WedgedNeverFinishes(w, plans, p);
      assert OnlyTries([]) && Play(w, plans, p, []) == p;
    } else {
      GoodAlwaysFinishes(w, plans, d, p);
    }
  }

  // ------------------------------------------------------- how a schema gets partial

  lemma {:induction false} ColumnsLeft(columns: seq<string>, gone: set<string>, c: string)
    ensures c in ColumnsWithout(columns, gone) <==> c in columns && c !in gone
  {
    if columns != [] {
      var n := |columns| - 1;
      ColumnsLeft(columns[..n], gone, c);
      assert columns == columns[..n] + [columns[n]];
    }
  }

  /** Dropping some but not all of the Discord columns in one statement wedges the migration if it stops there. */
  lemma DroppingSomeWedges(w: World, plans: seq<Plan>, s: State, gone: set<string>, a: string, b: string)
    requires MappingKeepsColumns(w) && AllPresent(s.tables, "stream_settings") && gone <= DiscordColumns
    requires a in gone && b in DiscordColumns && b !in gone
    ensures var t := s.tables["stream_settings" := DropColumns(s.tables["stream_settings"], gone)];
            DropsLegacy(s.tables, t) && Print(w, t) == Print(w, s.tables) && !CanFinish(w, plans, s.(tables := t))
  {
    var t := s.tables["stream_settings" := DropColumns(s.tables["stream_settings"], gone)];
    ColumnsLeft(s.tables["stream_settings"].columns, gone, a);
    ColumnsLeft(s.tables["stream_settings"].columns, gone, b);
    assert a in Legacy("stream_settings") && b in Legacy("stream_settings");
    assert Partial(t);
    assert DropsFrom(s.tables, t, "stream_settings", gone);
    DropKeepsPrint(w, s.tables, t);
    WedgedNeverFinishes(w, plans, s.(tables := t));
  }
}
