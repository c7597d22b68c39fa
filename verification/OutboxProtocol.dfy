/**
 The outbox as a protocol: any number of workers take claims, decide, fence,
 call the Bot and save, step by step and interleaved in any way. A worker can
 crash before every step, a save can fail or its answer be lost, and every step
 reads its own clock. The log records what happened, in order.
 */
module OutboxProtocol {
  import opened Text
  import opened OutboxStore
  import opened OutboxDispatch

  /** A claim in the hands of one worker; `n` is its copy of the row. */
  datatype Worker =
    | Deciding(n: Row, token: string)
    | Beginning(n: Row, token: string, lifecycle: string)
    | Calling(n: Row, token: string, lifecycle: string)
    | Saving(n: Row, token: string, save: Save, answer: Option<DispatchResult>)

  datatype Event =
    | WasClaimed(id: string, token: string, n: Row)
    | WasDecided(id: string, token: string, n: Row, o: Observation, now: int)
    | WasBegun(id: string, token: string)
    | WasCalled(id: string, token: string, eventID: string, result: DispatchResult)
    | WasSaved(id: string, token: string, save: Save)
    | WasFenced(id: string)

  /** `eventOf` remembers the event id of every notification there ever was. */
  datatype System = System(
    rows: map<string, Row>, workers: map<nat, Worker>, tokens: set<string>,
    eventOf: map<string, string>, log: seq<Event>)

  datatype Action =
    | Enqueue(row: Row)                                           // a start or an operator's recovery
    | Delete(id: string)                                          // the stream is deleted
    | TakeClaim(w: nat, id: string, token: string, now: int, expires: int)
    | FenceExpired(id: string, now: int)
    | DecideClaim(w: nat, o: Observation, now: int)
    | BeginDispatch(w: nat, now: int, heard: bool)                // heard: the store's answer arrives
    | CallBot(w: nat, result: DispatchResult, now: int)
    | SaveClaim(w: nat, now: int)
    | Crash(w: nat)                                               // also: the store refused or failed

  ghost predicate IsNew(r: Row) {
    && Retryable(r.state) && r.lease.None? && r.dispatchAttempts == 0 && r.lastError == "" && r.messageID == ""
  }

  ghost predicate Enabled(s: System, a: Action) {
    match a
    case Enqueue(row) => row.id !in s.eventOf && row.eventID !in s.eventOf.Values && IsNew(row)
    case Delete(id) => id in s.rows
    case TakeClaim(w, id, token, now, expires) =>
      w !in s.workers && id in s.rows && Due(s.rows[id], now) && token !in s.tokens
    case FenceExpired(id, now) => id in s.rows && FenceDue(s.rows[id], now)
    case DecideClaim(w, _, _) => w in s.workers && s.workers[w].Deciding?
    case BeginDispatch(w, now, _) =>
      w in s.workers && s.workers[w].Beginning? &&
      var k := s.workers[w];
      k.n.id in s.rows && CanBegin(s.rows[k.n.id], k.token, now)
    case CallBot(w, _, _) => w in s.workers && s.workers[w].Calling?
    case SaveClaim(w, now) =>
      w in s.workers && s.workers[w].Saving? &&
      var k := s.workers[w];
      k.n.id in s.rows && CanSave(s.rows[k.n.id], k.token, k.save, now)
    case Crash(w) => w in s.workers
  }

  ghost function Decided(k: Worker, o: Observation, now: int): (k': Worker)
    ensures k'.n == k.n && k'.token == k.token && (k'.Beginning? || (k'.Saving? && k'.answer.None?))
  {
    match Decide(k.n, o, now)
    case Finish(save) => Saving(k.n, k.token, save, None)
    case Proceed(lifecycle) => Beginning(k.n, k.token, lifecycle)
  }

  ghost function Step(s: System, a: Action): System
    requires Enabled(s, a)
  {
    match a
    case Enqueue(row) => s.(rows := s.rows[row.id := row], eventOf := s.eventOf[row.id := row.eventID])
    case Delete(id) => s.(rows := s.rows - {id})
    case TakeClaim(w, id, token, now, expires) =>
      var row := Claim(s.rows[id], token, expires);
      s.(rows := s.rows[id := row], workers := s.workers[w := Deciding(row, token)],
         tokens := s.tokens + {token}, log := s.log + [WasClaimed(id, token, row)])
    case FenceExpired(id, now) =>
      s.(rows := s.rows[id := Fence(s.rows[id])], log := s.log + [WasFenced(id)])
    case DecideClaim(w, o, now) =>
      var k := s.workers[w];
      s.(workers := s.workers[w := Decided(k, o, now)],
         log := s.log + [WasDecided(k.n.id, k.token, k.n, o, now)])
    case BeginDispatch(w, now, heard) =>
      var k := s.workers[w];
      var row := Begin(s.rows[k.n.id]);
      s.(rows := s.rows[k.n.id := row],
         workers := if heard then s.workers[w := Calling(row, k.token, k.lifecycle)] else s.workers - {w},
         log := s.log + [WasBegun(k.n.id, k.token)])
    case CallBot(w, result, now) =>
      var k := s.workers[w];
      s.(workers := s.workers[w := Saving(k.n, k.token, AfterBot(k.n, result, k.lifecycle, now), Some(result))],
         log := s.log + [WasCalled(k.n.id, k.token, k.n.eventID, result)])
    case SaveClaim(w, now) =>
      var k := s.workers[w];
      s.(rows := s.rows[k.n.id := Apply(s.rows[k.n.id], k.save, now)],
         workers := s.workers - {w},
         log := s.log + [WasSaved(k.n.id, k.token, k.save)])
    case Crash(w) => s.(workers := s.workers - {w})
  }

  const INITIAL := System(map[], map[], {}, map[], [])

  /** A run: states joined by enabled actions, from the empty system. */
  ghost predicate IsRun(states: seq<System>, actions: seq<Action>) {
    && |states| == |actions| + 1
    && states[0] == INITIAL
    && forall i | 0 <= i < |actions| :: Enabled(states[i], actions[i]) && states[i + 1] == Step(states[i], actions[i])
  }

  /** One more enabled step makes a longer run. */
  lemma RunOn(states: seq<System>, actions: seq<Action>, a: Action)
    requires IsRun(states, actions) && Enabled(states[|actions|], a)
    ensures IsRun(states + [Step(states[|actions|], a)], actions + [a])
  {
    var longer, more := states + [Step(states[|actions|], a)], actions + [a];
    forall i | 0 <= i < |more|
      ensures Enabled(longer[i], more[i]) && longer[i + 1] == Step(longer[i], more[i])
    {
      assert i < |actions| ==> Enabled(states[i], actions[i]) && states[i + 1] == Step(states[i], actions[i]);
    }
  }

  // ------------------------------------------------------------ names are unique

  ghost predicate WorkerKnown(s: System, w: nat)
    requires w in s.workers
  {
    var k := s.workers[w];
    k.token in s.tokens && k.n.id in s.eventOf && k.n.eventID == s.eventOf[k.n.id]
  }

  ghost predicate RowKnown(s: System, id: string)
    requires id in s.rows
  {
    var r := s.rows[id];
    && r.id == id && id in s.eventOf && r.eventID == s.eventOf[id]
    && (r.lease.Some? ==> r.lease.value.token in s.tokens)
  }

  ghost predicate EventKnown(s: System, e: Event) {
    && (!e.WasFenced? ==> e.token in s.tokens)
    && (e.WasCalled? ==> e.id in s.eventOf && e.eventID == s.eventOf[e.id])
  }

  ghost predicate SameToken(s: System, v: nat, w: nat)
    requires v in s.workers && w in s.workers
  {
    s.workers[v].token == s.workers[w].token
  }

  ghost predicate Names(s: System) {
    && (forall w | w in s.workers :: WorkerKnown(s, w))
    && (forall v, w | v in s.workers && w in s.workers && SameToken(s, v, w) :: v == w)
    && (forall id | id in s.rows :: RowKnown(s, id))
    && (forall i | 0 <= i < |s.log| :: EventKnown(s, s.log[i]))
    && (forall a, b | a in s.eventOf && b in s.eventOf && s.eventOf[a] == s.eventOf[b] :: a == b)
  }

  lemma WorkersStayKnown(s: System, a: Action, w: nat)
    requires Names(s) && Enabled(s, a) && w in Step(s, a).workers
    ensures WorkerKnown(Step(s, a), w)
  {
    assert w in s.workers ==> WorkerKnown(s, w);
    assert a.TakeClaim? ==> RowKnown(s, a.id);
    assert a.BeginDispatch? ==> RowKnown(s, s.workers[a.w].n.id);
  }

  lemma TokensStayApart(s: System, a: Action, v: nat, w: nat)
    requires Names(s) && Enabled(s, a) && v in Step(s, a).workers && w in Step(s, a).workers
    requires SameToken(Step(s, a), v, w)
    ensures v == w
  {
    assert v in s.workers ==> WorkerKnown(s, v);
    assert w in s.workers ==> WorkerKnown(s, w);
    assert v in s.workers && w in s.workers ==> (SameToken(s, v, w) ==> v == w);
  }

  lemma RowsStayKnown(s: System, a: Action, id: string)
    requires Names(s) && Enabled(s, a) && id in Step(s, a).rows
    ensures RowKnown(Step(s, a), id)
  {
    assert id in s.rows ==> RowKnown(s, id);
  }

  lemma EventsStayKnown(s: System, a: Action, i: nat)
    requires Names(s) && Enabled(s, a) && i < |Step(s, a).log|
    ensures EventKnown(Step(s, a), Step(s, a).log[i])
  {
    assert i < |s.log| ==> EventKnown(s, s.log[i]);
    assert a.DecideClaim? || a.BeginDispatch? || a.CallBot? || a.SaveClaim? ==> WorkerKnown(s, a.w);
  }

  lemma NamesStep(s: System, a: Action)
    requires Names(s) && Enabled(s, a)
    ensures Names(Step(s, a))
  {
    var s' := Step(s, a);
    forall w | w in s'.workers
      ensures WorkerKnown(s', w)
    {
      WorkersStayKnown(s, a, w);
    }
    forall v, w | v in s'.workers && w in s'.workers && SameToken(s', v, w)
      ensures v == w
    {
      TokensStayApart(s, a, v, w);
    }
    forall id | id in s'.rows
      ensures RowKnown(s', id)
    {
      RowsStayKnown(s, a, id);
    }
    forall i | 0 <= i < |s'.log|
      ensures EventKnown(s', s'.log[i])
    {
      EventsStayKnown(s, a, i);
    }
  }

  // ------------------------------------------------------ one Bot call at a time

  /** The save that makes a later call of the same notification legitimate. */
  ghost predicate Settles(call: Event, save: Event) {
    && call.WasCalled? && NothingSent(call.result)
    && save.WasSaved? && save.id == call.id && save.token == call.token && save.save.Retry?
  }

  /** Between call i and position n the Bot's "nothing was sent" was saved as a retry. */
  ghost predicate Settled(log: seq<Event>, i: nat, n: nat)
    requires i < |log| && n <= |log|
  {
    exists k | i < k < n :: Settles(log[i], log[k])
  }

  lemma SettledStays(log: seq<Event>, e: Event, i: nat, n: nat)
    requires i < |log| && n <= |log|
    ensures Settled(log, i, n) ==> Settled(log + [e], i, n) && Settled(log + [e], i, n + 1)
    ensures Settled(log + [e], i, n) ==> Settled(log, i, n)
    ensures n == |log| && Settles(log[i], e) ==> Settled(log + [e], i, n + 1)
  {
    var more := log + [e];
    if Settled(log, i, n) {
      var k :| i < k < n && Settles(log[i], log[k]);
      assert Settles(more[i], more[k]);
    }
    if Settled(more, i, n) {
      var k :| i < k < n && Settles(more[i], more[k]);
      assert Settles(log[i], log[k]);
    }
    if n == |log| && Settles(log[i], e) {
      assert Settles(more[i], more[n]);
    }
  }

  ghost predicate Under(r: Row, token: string) {
    r.state == BotDispatching && r.lease.Some? && r.lease.value.token == token
  }

  ghost predicate Terminal(r: Row) {
    r.state == Delivered || r.state == DeliveryUnknown || r.state == Suppressed
  }

  /** An unsettled call keeps its row shut, for everyone but the worker that made it. */
  ghost predicate CallShuts(s: System, i: nat)
    requires i < |s.log|
  {
    var c := s.log[i];
    c.WasCalled? && c.id in s.rows && !Settled(s.log, i, |s.log|) ==>
      Terminal(s.rows[c.id]) || Under(s.rows[c.id], c.token)
  }

  /** A call was made under the token of at most one worker, which now holds its answer. */
  ghost predicate CallAnswered(s: System, i: nat, w: nat)
    requires i < |s.log| && w in s.workers
  {
    var c, k := s.log[i], s.workers[w];
    c.WasCalled? && c.token == k.token ==> k.Saving? && k.answer == Some(c.result) && k.n.id == c.id
  }

  /** What is saved after an answer is what the answer calls for. */
  ghost predicate Answers(save: Save, r: DispatchResult) {
    && (save.Retry? ==> NothingSent(r))
    && (save.MarkDelivered? ==> r.success && Trim(r.messageID) != "" && save.messageID == r.messageID)
  }

  ghost predicate WorkerPlaced(s: System, w: nat)
    requires w in s.workers
  {
    var k := s.workers[w];
    if k.Calling? then k.n.id in s.rows ==> Under(s.rows[k.n.id], k.token) || s.rows[k.n.id].state == DeliveryUnknown
    else if k.Saving? && k.answer.Some? then Answers(k.save, k.answer.value)
    else k.n.id in s.rows ==> !Under(s.rows[k.n.id], k.token)
  }

  /** When a worker is about to call, every earlier call of its notification is settled. */
  ghost predicate CallerClear(s: System, i: nat, w: nat)
    requires i < |s.log| && w in s.workers
  {
    var c, k := s.log[i], s.workers[w];
    k.Calling? && c.WasCalled? && c.id == k.n.id ==> Settled(s.log, i, |s.log|)
  }

  ghost predicate BothCall(s: System, v: nat, w: nat)
    requires v in s.workers && w in s.workers
  {
    s.workers[v].Calling? && s.workers[w].Calling? && s.workers[v].n.id == s.workers[w].n.id
  }

  ghost predicate SameNotification(log: seq<Event>, i: nat, j: nat)
    requires i < |log| && j < |log|
  {
    log[i].WasCalled? && log[j].WasCalled? && log[i].id == log[j].id
  }

  ghost predicate Calls(s: System) {
    && (forall i | 0 <= i < |s.log| :: CallShuts(s, i))
    && (forall w | w in s.workers :: WorkerPlaced(s, w))
    && (forall i, w | 0 <= i < |s.log| && w in s.workers :: CallAnswered(s, i, w))
    && (forall i, w | 0 <= i < |s.log| && w in s.workers :: CallerClear(s, i, w))
    && (forall v, w | v in s.workers && w in s.workers && BothCall(s, v, w) :: v == w)
    && (forall i, j | 0 <= i < j < |s.log| && SameNotification(s.log, i, j) :: Settled(s.log, i, j))
  }

  lemma LogGrows(s: System, a: Action)
    requires Enabled(s, a)
    ensures |s.log| <= |Step(s, a).log| <= |s.log| + 1
    ensures |Step(s, a).log| > |s.log| ==> Step(s, a).log == s.log + [Step(s, a).log[|s.log|]]
  {
  }

  lemma AnswersAfterBot(n: Row, r: DispatchResult, lifecycle: string, now: int)
    ensures Answers(AfterBot(n, r, lifecycle, now), r)
  {
  }

  /** An earlier call stays shut through a step that changes rows without saving. */
  lemma ShutThroughRows(s: System, a: Action, i: nat)
    requires Enabled(s, a) && i < |s.log| && CallShuts(s, i) && EventKnown(s, s.log[i])
    requires a.Enqueue? || a.Delete? || a.TakeClaim? || a.FenceExpired? || a.BeginDispatch?
    ensures CallShuts(Step(s, a), i)
  {
    if !a.Enqueue? && !a.Delete? {
      SettledStays(s.log, Step(s, a).log[|s.log|], i, |s.log|);
    }
  }

  lemma ShutThroughSave(s: System, a: Action, i: nat)
    requires Enabled(s, a) && a.SaveClaim? && i < |s.log|
    requires CallShuts(s, i) && CallAnswered(s, i, a.w) && WorkerPlaced(s, a.w)
    ensures CallShuts(Step(s, a), i)
  {
    SettledStays(s.log, Step(s, a).log[|s.log|], i, |s.log|);
  }

  lemma ShutThroughWorkers(s: System, a: Action, i: nat)
    requires Enabled(s, a) && i < |Step(s, a).log|
    requires a.DecideClaim? || a.CallBot? || a.Crash?
    requires i < |s.log| ==> CallShuts(s, i)
    requires a.CallBot? ==> WorkerPlaced(s, a.w)
    ensures CallShuts(Step(s, a), i)
  {
    if i < |s.log| && !a.Crash? {
      SettledStays(s.log, Step(s, a).log[|s.log|], i, |s.log|);
    }
  }

  lemma CallShutsStep(s: System, a: Action, i: nat)
    requires Names(s) && Calls(s) && Enabled(s, a) && i < |Step(s, a).log|
    ensures CallShuts(Step(s, a), i)
  {
    assert i < |s.log| ==> CallShuts(s, i) && EventKnown(s, s.log[i]);
    if a.DecideClaim? || a.CallBot? || a.Crash? {
      assert a.CallBot? ==> WorkerPlaced(s, a.w);
      ShutThroughWorkers(s, a, i);
    } else if i == |s.log| {
      assert !Step(s, a).log[i].WasCalled?;
    } else if a.SaveClaim? {
      assert CallAnswered(s, i, a.w) && WorkerPlaced(s, a.w);
      ShutThroughSave(s, a, i);
    } else {
      ShutThroughRows(s, a, i);
    }
  }

  lemma PlacedThroughRows(s: System, a: Action, w: nat)
    requires Enabled(s, a) && w in Step(s, a).workers
    requires a.Enqueue? || a.Delete? || a.TakeClaim? || a.FenceExpired? || a.Crash?
    requires w in s.workers ==> WorkerPlaced(s, w) && WorkerKnown(s, w)
    requires a.TakeClaim? ==> RowKnown(s, a.id)
    ensures WorkerPlaced(Step(s, a), w)
  {
  }

  lemma PlacedThroughBegin(s: System, a: Action, w: nat)
    requires Enabled(s, a) && w in Step(s, a).workers && a.BeginDispatch?
    requires WorkerPlaced(s, w) && (SameToken(s, a.w, w) ==> a.w == w)
    requires RowKnown(s, s.workers[a.w].n.id)
    ensures WorkerPlaced(Step(s, a), w)
  {
  }

  lemma PlacedThroughSave(s: System, a: Action, w: nat)
    requires Enabled(s, a) && w in Step(s, a).workers && a.SaveClaim?
    requires WorkerPlaced(s, w) && (SameToken(s, a.w, w) ==> a.w == w)
    ensures WorkerPlaced(Step(s, a), w)
  {
    var k := s.workers[w];
    assert w != a.w;
    assert !Under(Apply(s.rows[s.workers[a.w].n.id], s.workers[a.w].save, a.now), k.token);
    if k.n.id == s.workers[a.w].n.id {
      assert !Under(s.rows[k.n.id], k.token);
    }
  }

  lemma PlacedThroughWorkers(s: System, a: Action, w: nat)
    requires Enabled(s, a) && w in Step(s, a).workers && (a.DecideClaim? || a.CallBot?)
    requires WorkerPlaced(s, w)
    ensures WorkerPlaced(Step(s, a), w)
  {
    if a.CallBot? {
      AnswersAfterBot(s.workers[a.w].n, a.result, s.workers[a.w].lifecycle, a.now);
    }
  }

  lemma WorkerPlacedStep(s: System, a: Action, w: nat)
    requires Names(s) && Calls(s) && Enabled(s, a) && w in Step(s, a).workers
    ensures WorkerPlaced(Step(s, a), w)
  {
    assert w in s.workers ==> WorkerPlaced(s, w) && WorkerKnown(s, w);
    if a.BeginDispatch? {
      assert SameToken(s, a.w, w) ==> a.w == w;
      assert RowKnown(s, s.workers[a.w].n.id);
      PlacedThroughBegin(s, a, w);
    } else if a.SaveClaim? {
      assert SameToken(s, a.w, w) ==> a.w == w;
      PlacedThroughSave(s, a, w);
    } else if a.DecideClaim? || a.CallBot? {
      PlacedThroughWorkers(s, a, w);
    } else {
      assert a.TakeClaim? ==> RowKnown(s, a.id);
      PlacedThroughRows(s, a, w);
    }
  }

  lemma AnsweredThrough(s: System, a: Action, i: nat, w: nat)
    requires Enabled(s, a) && i < |Step(s, a).log| && w in Step(s, a).workers
    requires i < |s.log| ==> EventKnown(s, s.log[i])
    requires i < |s.log| && w in s.workers ==> CallAnswered(s, i, w)
    requires a.CallBot? && i == |s.log| ==> (SameToken(s, a.w, w) ==> a.w == w)
    ensures CallAnswered(Step(s, a), i, w)
  {
  }

  lemma CallAnsweredStep(s: System, a: Action, i: nat, w: nat)
    requires Names(s) && Calls(s) && Enabled(s, a) && i < |Step(s, a).log| && w in Step(s, a).workers
    ensures CallAnswered(Step(s, a), i, w)
  {
    assert i < |s.log| ==> EventKnown(s, s.log[i]);
    assert i < |s.log| && w in s.workers ==> CallAnswered(s, i, w);
    assert a.CallBot? ==> (SameToken(s, a.w, w) ==> a.w == w);
    AnsweredThrough(s, a, i, w);
  }

  /** A worker that is about to call, or became so by beginning, finds every earlier call settled. */
  lemma ClearThrough(s: System, a: Action, i: nat, w: nat)
    requires Enabled(s, a) && i < |s.log| && w in Step(s, a).workers
    requires w in s.workers ==> CallerClear(s, i, w)
    requires a.BeginDispatch? ==> CallShuts(s, i) && RowKnown(s, s.workers[a.w].n.id)
    ensures CallerClear(Step(s, a), i, w)
  {
    if |Step(s, a).log| > |s.log| {
      SettledStays(s.log, Step(s, a).log[|s.log|], i, |s.log|);
      LogGrows(s, a);
    }
  }

  lemma ClearOfNewCall(s: System, a: Action, w: nat)
    requires Enabled(s, a) && |Step(s, a).log| > |s.log| && w in Step(s, a).workers
    requires a.CallBot? ==> (w in s.workers && (BothCall(s, a.w, w) ==> a.w == w))
    ensures CallerClear(Step(s, a), |s.log|, w)
  {
  }

  lemma CallerClearStep(s: System, a: Action, i: nat, w: nat)
    requires Names(s) && Calls(s) && Enabled(s, a) && i < |Step(s, a).log| && w in Step(s, a).workers
    ensures CallerClear(Step(s, a), i, w)
  {
    if i < |s.log| {
      assert w in s.workers ==> CallerClear(s, i, w);
      assert CallShuts(s, i);
      assert a.BeginDispatch? ==> RowKnown(s, s.workers[a.w].n.id);
      ClearThrough(s, a, i, w);
    } else {
      assert a.CallBot? ==> (BothCall(s, a.w, w) ==> a.w == w);
      ClearOfNewCall(s, a, w);
    }
  }

  lemma OneCallerThroughBegin(s: System, a: Action, w: nat)
    requires Enabled(s, a) && a.BeginDispatch? && w in s.workers && s.workers[w].Calling?
    requires WorkerPlaced(s, w)
    ensures s.workers[w].n.id != s.workers[a.w].n.id
  {
  }

  lemma OneCallerStep(s: System, a: Action, v: nat, w: nat)
    requires Names(s) && Calls(s) && Enabled(s, a) && v in Step(s, a).workers && w in Step(s, a).workers
    requires BothCall(Step(s, a), v, w)
    ensures v == w
  {
    if a.BeginDispatch? {
      assert RowKnown(s, s.workers[a.w].n.id);
      if v != a.w {
        assert WorkerPlaced(s, v);
        OneCallerThroughBegin(s, a, v);
      }
      if w != a.w {
        assert WorkerPlaced(s, w);
        OneCallerThroughBegin(s, a, w);
      }
    }
    assert v in s.workers && w in s.workers ==> (BothCall(s, v, w) ==> v == w);
  }

  lemma OrderStep(s: System, a: Action, i: nat, j: nat)
    requires Names(s) && Calls(s) && Enabled(s, a) && i < j < |Step(s, a).log|
    requires SameNotification(Step(s, a).log, i, j)
    ensures Settled(Step(s, a).log, i, j)
  {
    LogGrows(s, a);
    if j < |s.log| {
      assert SameNotification(s.log, i, j);
      if |Step(s, a).log| > |s.log| {
        SettledStays(s.log, Step(s, a).log[|s.log|], i, j);
      }
    } else {
      assert CallerClear(s, i, a.w);
      SettledStays(s.log, Step(s, a).log[|s.log|], i, j);
    }
  }

  lemma CallsStep(s: System, a: Action)
    requires Names(s) && Calls(s) && Enabled(s, a)
    ensures Calls(Step(s, a))
  {
    var s' := Step(s, a);
    forall i | 0 <= i < |s'.log|
      ensures CallShuts(s', i)
    {
      CallShutsStep(s, a, i);
    }
    forall w | w in s'.workers
      ensures WorkerPlaced(s', w)
    {
      WorkerPlacedStep(s, a, w);
    }
    forall i, w | 0 <= i < |s'.log| && w in s'.workers
      ensures CallAnswered(s', i, w) && CallerClear(s', i, w)
    {
      CallAnsweredStep(s, a, i, w);
      CallerClearStep(s, a, i, w);
    }
    forall v, w | v in s'.workers && w in s'.workers && BothCall(s', v, w)
      ensures v == w
    {
      OneCallerStep(s, a, v, w);
    }
    forall i, j | 0 <= i < j < |s'.log| && SameNotification(s'.log, i, j)
      ensures Settled(s'.log, i, j)
    {
      OrderStep(s, a, i, j);
    }
  }

  lemma {:induction false} CallsInRun(states: seq<System>, actions: seq<Action>, n: nat)
    requires IsRun(states, actions) && n < |states|
    ensures Names(states[n]) && Calls(states[n])
  {
    if n > 0 {
      CallsInRun(states, actions, n - 1);
      NamesStep(states[n - 1], actions[n - 1]);
      CallsStep(states[n - 1], actions[n - 1]);
    }
  }

  /**
   Over every run, with any number of workers, crashes and failed saves: two Bot
   calls carry the same event id only if the Bot answered the first one that
   nothing was sent, and that answer was saved as a retry in between.
   */
  lemma NoSecondPost(states: seq<System>, actions: seq<Action>, n: nat, i: nat, j: nat)
    requires IsRun(states, actions) && n < |states| && i < j < |states[n].log|
    requires var log := states[n].log;
             log[i].WasCalled? && log[j].WasCalled? && log[i].eventID == log[j].eventID
    ensures NothingSent(states[n].log[i].result)
    ensures Settled(states[n].log, i, j)
  {
    CallsInRun(states, actions, n);
    var s := states[n];
    assert EventKnown(s, s.log[i]) && EventKnown(s, s.log[j]);
    assert SameNotification(s.log, i, j);
    var k :| i < k < j && Settles(s.log[i], s.log[k]);
  }
}
