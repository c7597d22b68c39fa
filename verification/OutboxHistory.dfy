/**
 What the log of an outbox run tells: every Bot call was approved and fenced,
 every delivered row has its receipt, the durable counter covers the calls, and
 the live transition is asked for again only under one condition.
 */
module OutboxHistory {
  import opened Text
  import opened OutboxStore
  import opened OutboxDispatch
  import opened OutboxProtocol

  lemma LogIsPrefix(s: System, a: Action)
    requires Enabled(s, a)
    ensures |s.log| <= |Step(s, a).log|
    ensures forall i | 0 <= i < |s.log| :: Step(s, a).log[i] == s.log[i]
  {
  }

  // ------------------------------------------------------- approved and fenced

  /** In this claim the stream was live, the provider said so, and the Bot was assigned. */
  ghost predicate Approves(e: Event, id: string, token: string) {
    e.WasDecided? && e.id == id && e.token == token && e.n.id == id && Decide(e.n, e.o, e.now).Proceed?
  }

  ghost predicate Approved(log: seq<Event>, n: nat, id: string, token: string)
    requires n <= |log|
  {
    exists k | 0 <= k < n :: Approves(log[k], id, token)
  }

  ghost predicate Fenced(log: seq<Event>, n: nat, id: string, token: string)
    requires n <= |log|
  {
    exists k | 0 <= k < n :: log[k] == WasBegun(id, token)
  }

  ghost predicate WorkerApproved(s: System, w: nat)
    requires w in s.workers
  {
    var k := s.workers[w];
    && (k.Beginning? || k.Calling? ==> Approved(s.log, |s.log|, k.n.id, k.token))
    && (k.Calling? ==> Fenced(s.log, |s.log|, k.n.id, k.token))
  }

  ghost predicate CallApproved(log: seq<Event>, i: nat)
    requires i < |log|
  {
    log[i].WasCalled? ==> Approved(log, i, log[i].id, log[i].token) && Fenced(log, i, log[i].id, log[i].token)
  }

  ghost predicate Evidence(s: System) {
    && (forall w | w in s.workers :: WorkerApproved(s, w))
    && (forall i | 0 <= i < |s.log| :: CallApproved(s.log, i))
  }

  lemma EvidenceStays(log: seq<Event>, more: seq<Event>, n: nat, m: nat, id: string, token: string)
    requires n <= |log| <= |more| && n <= m <= |more| && forall i | 0 <= i < |log| :: more[i] == log[i]
    ensures Approved(log, n, id, token) ==> Approved(more, m, id, token)
    ensures Fenced(log, n, id, token) ==> Fenced(more, m, id, token)
  {
    if Approved(log, n, id, token) {
      var k :| 0 <= k < n && Approves(log[k], id, token);
      assert Approves(more[k], id, token);
    }
    if Fenced(log, n, id, token) {
      var k :| 0 <= k < n && log[k] == WasBegun(id, token);
      assert more[k] == WasBegun(id, token);
    }
  }

  lemma ApprovedCarries(s: System, a: Action, w: nat)
    requires Enabled(s, a) && w in s.workers && w in Step(s, a).workers
    requires WorkerApproved(s, w) && Step(s, a).workers[w] == s.workers[w]
    ensures WorkerApproved(Step(s, a), w)
  {
    LogIsPrefix(s, a);
    EvidenceStays(s.log, Step(s, a).log, |s.log|, |Step(s, a).log|, s.workers[w].n.id, s.workers[w].token);
  }

  lemma ApprovedByDecision(s: System, a: Action)
    requires Enabled(s, a) && a.DecideClaim? && a.w in Step(s, a).workers
    ensures WorkerApproved(Step(s, a), a.w)
  {
    var s', k := Step(s, a), s.workers[a.w];
    assert s'.log[|s.log|] == WasDecided(k.n.id, k.token, k.n, a.o, a.now);
    assert s'.workers[a.w].Beginning? ==> Approves(s'.log[|s.log|], k.n.id, k.token);
  }

  lemma ApprovedByBegin(s: System, a: Action)
    requires Names(s) && Enabled(s, a) && a.BeginDispatch? && a.w in s.workers && a.w in Step(s, a).workers
    requires WorkerApproved(s, a.w)
    ensures WorkerApproved(Step(s, a), a.w)
  {
    var s', k := Step(s, a), s.workers[a.w];
    LogIsPrefix(s, a);
    EvidenceStays(s.log, s'.log, |s.log|, |s'.log|, k.n.id, k.token);
    assert RowKnown(s, k.n.id);
    if |s'.log| > |s.log| {
      assert s'.log[|s.log|] == WasBegun(k.n.id, k.token);
    }
  }

  lemma WorkerApprovedStep(s: System, a: Action, w: nat)
    requires Names(s) && Evidence(s) && Enabled(s, a) && w in Step(s, a).workers
    ensures WorkerApproved(Step(s, a), w)
  {
    if w in s.workers {
      assert WorkerApproved(s, w);
      if Step(s, a).workers[w] == s.workers[w] {
        ApprovedCarries(s, a, w);
      } else if a.DecideClaim? {
        ApprovedByDecision(s, a);
      } else if a.BeginDispatch? {
        ApprovedByBegin(s, a);
      }
    }
  }

  lemma CallApprovedStep(s: System, a: Action, i: nat)
    requires Evidence(s) && Enabled(s, a) && i < |Step(s, a).log|
    ensures CallApproved(Step(s, a).log, i)
  {
    var s' := Step(s, a);
    LogIsPrefix(s, a);
    if i < |s.log| {
      assert CallApproved(s.log, i);
      if s.log[i].WasCalled? {
        EvidenceStays(s.log, s'.log, i, i, s.log[i].id, s.log[i].token);
      }
    } else if a.CallBot? {
      var k := s.workers[a.w];
      assert WorkerApproved(s, a.w);
      EvidenceStays(s.log, s'.log, |s.log|, |s.log|, k.n.id, k.token);
    }
  }

  lemma EvidenceStep(s: System, a: Action)
    requires Names(s) && Evidence(s) && Enabled(s, a)
    ensures Evidence(Step(s, a))
  {
    var s' := Step(s, a);
    forall w | w in s'.workers
      ensures WorkerApproved(s', w)
    {
      WorkerApprovedStep(s, a, w);
    }
    forall i | 0 <= i < |s'.log|
      ensures CallApproved(s'.log, i)
    {
      CallApprovedStep(s, a, i);
    }
  }

  lemma {:induction false} EvidenceInRun(states: seq<System>, actions: seq<Action>, n: nat)
    requires IsRun(states, actions) && n < |states|
    ensures Evidence(states[n])
  {
    if n > 0 {
      EvidenceInRun(states, actions, n - 1);
      CallsInRun(states, actions, n - 1);
      EvidenceStep(states[n - 1], actions[n - 1]);
    }
  }

  /**
   In every run, a Bot call comes after its durable fence and, in the same claim,
   after the stream was found live and the provider answered `live`, unless the
   output is a stream key, which has no broadcast to ask about.
   */
  lemma CallsFollowLive(states: seq<System>, actions: seq<Action>, n: nat, i: nat) returns (k: nat)
    requires IsRun(states, actions) && n < |states| && i < |states[n].log| && states[n].log[i].WasCalled?
    ensures k < i && Fenced(states[n].log, i, states[n].log[i].id, states[n].log[i].token)
    ensures var c, d := states[n].log[i], states[n].log[k];
            && d.WasDecided? && d.id == c.id && d.token == c.token
            && d.o.stream.StreamFound? && EqualFold(Trim(d.o.stream.status), "live")
            && (IsStreamKey(d.n.mode) || ProviderSaidLive(d.n, d.o.provider))
  {
    EvidenceInRun(states, actions, n);
    var log := states[n].log;
    assert CallApproved(log, i);
    k :| 0 <= k < i && Approves(log[k], log[i].id, log[i].token);
    ProceedNeedsLive(log[k].n, log[k].o, log[k].now);
  }

  // ------------------------------------------------------------- receipts

  ghost predicate CallWithAnswer(e: Event, id: string, r: DispatchResult) {
    e.WasCalled? && e.id == id && e.result == r
  }

  ghost predicate AnswerLogged(s: System, w: nat)
    requires w in s.workers
  {
    var k := s.workers[w];
    k.Saving? && k.answer.Some? ==> exists i | 0 <= i < |s.log| :: CallWithAnswer(s.log[i], k.n.id, k.answer.value)
  }

  /** The Bot's receipt for a message. */
  ghost predicate Receipt(e: Event, id: string, messageID: string) {
    e.WasCalled? && e.id == id && e.result.success && Trim(e.result.messageID) == messageID != ""
  }

  ghost predicate RowReceipted(s: System, id: string)
    requires id in s.rows
  {
    s.rows[id].state == Delivered ==>
      exists i | 0 <= i < |s.log| :: Receipt(s.log[i], id, s.rows[id].messageID)
  }

  ghost predicate Receipts(s: System) {
    && (forall w | w in s.workers :: AnswerLogged(s, w))
    && (forall id | id in s.rows :: RowReceipted(s, id))
  }

  lemma AnswerLoggedStep(s: System, a: Action, w: nat)
    requires Receipts(s) && Enabled(s, a) && w in Step(s, a).workers
    ensures AnswerLogged(Step(s, a), w)
  {
    var s' := Step(s, a);
    LogIsPrefix(s, a);
    var k := s'.workers[w];
    if k.Saving? && k.answer.Some? {
      if a.CallBot? && a.w == w {
        assert CallWithAnswer(s'.log[|s.log|], k.n.id, k.answer.value);
      } else {
        assert AnswerLogged(s, w);
        var i :| 0 <= i < |s.log| && CallWithAnswer(s.log[i], k.n.id, k.answer.value);
        assert CallWithAnswer(s'.log[i], k.n.id, k.answer.value);
      }
    }
  }

  lemma RowReceiptedStep(s: System, a: Action, id: string)
    requires Calls(s) && Receipts(s) && Enabled(s, a) && id in Step(s, a).rows
    ensures RowReceipted(Step(s, a), id)
  {
    var s' := Step(s, a);
    LogIsPrefix(s, a);
    if s'.rows[id].state == Delivered {
      if a.SaveClaim? && s.workers[a.w].n.id == id {
        var k := s.workers[a.w];
        assert WorkerPlaced(s, a.w) && AnswerLogged(s, a.w);
        var i :| 0 <= i < |s.log| && CallWithAnswer(s.log[i], id, k.answer.value);
        assert Receipt(s'.log[i], id, s'.rows[id].messageID);
      } else {
        assert RowReceipted(s, id);
        var i :| 0 <= i < |s.log| && Receipt(s.log[i], id, s.rows[id].messageID);
        assert Receipt(s'.log[i], id, s'.rows[id].messageID);
      }
    }
  }

  lemma {:induction false} ReceiptsInRun(states: seq<System>, actions: seq<Action>, n: nat)
    requires IsRun(states, actions) && n < |states|
    ensures Receipts(states[n])
  {
    if n > 0 {
      var s, a := states[n - 1], actions[n - 1];
      ReceiptsInRun(states, actions, n - 1);
      CallsInRun(states, actions, n - 1);
      forall w | w in states[n].workers
        ensures AnswerLogged(states[n], w)
      {
        AnswerLoggedStep(s, a, w);
      }
      forall id | id in states[n].rows
        ensures RowReceipted(states[n], id)
      {
        RowReceiptedStep(s, a, id);
      }
    }
  }

  /** A row says delivered only with the message id of a successful Bot call, the last one made for its event. */
  lemma DeliveredMeansPosted(states: seq<System>, actions: seq<Action>, n: nat, id: string) returns (i: nat)
    requires IsRun(states, actions) && n < |states| && id in states[n].rows
    requires states[n].rows[id].state == Delivered
    ensures i < |states[n].log| && Receipt(states[n].log[i], id, states[n].rows[id].messageID)
    ensures forall j | i < j < |states[n].log| :: !(states[n].log[j].WasCalled? && states[n].log[j].id == id)
  {
    ReceiptsInRun(states, actions, n);
    CallsInRun(states, actions, n);
    var s := states[n];
    assert RowReceipted(s, id);
    i :| 0 <= i < |s.log| && Receipt(s.log[i], id, s.rows[id].messageID);
    forall j | i < j < |s.log|
      ensures !(s.log[j].WasCalled? && s.log[j].id == id)
    {
      assert SameNotification(s.log, i, j) ==> Settled(s.log, i, j);
    }
  }

  // ------------------------------------------------------------- counting

  ghost predicate IsBegun(e: Event, id: string) {
    e.WasBegun? && e.id == id
  }

  ghost predicate IsCall(e: Event, id: string) {
    e.WasCalled? && e.id == id
  }

  ghost function BegunCount(log: seq<Event>, id: string): nat {
    if log == [] then 0
    else BegunCount(log[..|log| - 1], id) + (if IsBegun(log[|log| - 1], id) then 1 else 0)
  }

  ghost function CallCount(log: seq<Event>, id: string): nat {
    if log == [] then 0
    else CallCount(log[..|log| - 1], id) + (if IsCall(log[|log| - 1], id) then 1 else 0)
  }

  lemma CountAppend(log: seq<Event>, e: Event, id: string)
    ensures BegunCount(log + [e], id) == BegunCount(log, id) + (if IsBegun(e, id) then 1 else 0)
    ensures CallCount(log + [e], id) == CallCount(log, id) + (if IsCall(e, id) then 1 else 0)
  {
    assert (log + [e])[..|log + [e]| - 1] == log;
  }

  ghost predicate CallsNow(s: System, id: string) {
    exists w | w in s.workers :: s.workers[w].Calling? && s.workers[w].n.id == id
  }

  /** Every call has used up a fence of its own; a worker about to call holds one more. */
  ghost predicate Counted(s: System, id: string) {
    && CallCount(s.log, id) + (if CallsNow(s, id) then 1 else 0) <= BegunCount(s.log, id)
    && (id in s.rows ==> s.rows[id].dispatchAttempts == BegunCount(s.log, id))
    && (id !in s.eventOf ==> BegunCount(s.log, id) == 0)
  }

  ghost predicate Counts(s: System) {
    forall id :: Counted(s, id)
  }

  lemma NoCallerBefore(s: System, a: Action)
    requires Names(s) && Calls(s) && Enabled(s, a) && a.BeginDispatch?
    ensures !CallsNow(s, s.workers[a.w].n.id)
  {
    forall w | w in s.workers && s.workers[w].Calling?
      ensures s.workers[w].n.id != s.workers[a.w].n.id
    {
      assert WorkerPlaced(s, w);
      OneCallerThroughBegin(s, a, w);
    }
  }

  lemma NoCallerAfter(s: System, a: Action)
    requires Names(s) && Calls(s) && Enabled(s, a) && a.CallBot?
    ensures CallsNow(s, s.workers[a.w].n.id) && !CallsNow(Step(s, a), s.workers[a.w].n.id)
  {
    var s', caller, id := Step(s, a), a.w, s.workers[a.w].n.id;
    forall w | w in s'.workers && s'.workers[w].Calling?
      ensures s'.workers[w].n.id != id
    {
      assert BothCall(s, caller, w) ==> caller == w;
    }
  }

  /** Only beginning makes a caller, and only of its own notification. */
  lemma CallersOnlyBegin(s: System, a: Action, id: string)
    requires Names(s) && Enabled(s, a) && CallsNow(Step(s, a), id)
    ensures CallsNow(s, id) || (a.BeginDispatch? && id == s.workers[a.w].n.id)
  {
    var s' := Step(s, a);
    var w :| w in s'.workers && s'.workers[w].Calling? && s'.workers[w].n.id == id;
    if a.BeginDispatch? && a.w == w {
      assert RowKnown(s, s.workers[w].n.id);
    } else {
      assert w in s.workers && s.workers[w] == s'.workers[w];
    }
  }

  lemma CountedThroughBegin(s: System, a: Action, id: string)
    requires Names(s) && Calls(s) && Counted(s, id) && Enabled(s, a) && a.BeginDispatch?
    ensures Counted(Step(s, a), id)
  {
    CountAppend(s.log, WasBegun(s.workers[a.w].n.id, s.workers[a.w].token), id);
    NoCallerBefore(s, a);
    assert WorkerKnown(s, a.w);
    if CallsNow(Step(s, a), id) {
      CallersOnlyBegin(s, a, id);
    }
  }

  lemma CountedThroughCall(s: System, a: Action, id: string)
    requires Names(s) && Calls(s) && Counted(s, id) && Enabled(s, a) && a.CallBot?
    ensures Counted(Step(s, a), id)
  {
    CountAppend(s.log, Step(s, a).log[|s.log|], id);
    NoCallerAfter(s, a);
    if CallsNow(Step(s, a), id) {
      CallersOnlyBegin(s, a, id);
    }
  }

  lemma CountedThroughRows(s: System, a: Action, id: string)
    requires Counted(s, id) && Enabled(s, a) && (CallsNow(Step(s, a), id) ==> CallsNow(s, id))
    requires a.Enqueue? || a.Delete? || a.TakeClaim? || a.FenceExpired?
    ensures Counted(Step(s, a), id)
  {
    if |Step(s, a).log| > |s.log| {
      CountAppend(s.log, Step(s, a).log[|s.log|], id);
    }
  }

  lemma CountedThroughWorkers(s: System, a: Action, id: string)
    requires Counted(s, id) && Enabled(s, a) && (CallsNow(Step(s, a), id) ==> CallsNow(s, id))
    requires a.DecideClaim? || a.SaveClaim? || a.Crash?
    ensures Counted(Step(s, a), id)
  {
    if |Step(s, a).log| > |s.log| {
      CountAppend(s.log, Step(s, a).log[|s.log|], id);
    }
  }

  lemma CountedStep(s: System, a: Action, id: string)
    requires Names(s) && Calls(s) && Counted(s, id) && Enabled(s, a)
    ensures Counted(Step(s, a), id)
  {
    if CallsNow(Step(s, a), id) {
      CallersOnlyBegin(s, a, id);
    }
    if a.BeginDispatch? {
      CountedThroughBegin(s, a, id);
    } else if a.CallBot? {
      CountedThroughCall(s, a, id);
    } else if a.DecideClaim? || a.SaveClaim? || a.Crash? {
      CountedThroughWorkers(s, a, id);
    } else {
      CountedThroughRows(s, a, id);
    }
  }

  lemma {:induction false} CountsInRun(states: seq<System>, actions: seq<Action>, n: nat)
    requires IsRun(states, actions) && n < |states|
    ensures Counts(states[n])
  {
    if n > 0 {
      CountsInRun(states, actions, n - 1);
      CallsInRun(states, actions, n - 1);
      forall id
        ensures Counted(states[n], id)
      {
        assert Counted(states[n - 1], id);
        CountedStep(states[n - 1], actions[n - 1], id);
      }
    }
  }

  /** The durable dispatch counter is the number of fences passed and is never below the number of Bot calls made. */
  lemma CounterCoversCalls(states: seq<System>, actions: seq<Action>, n: nat, id: string)
    requires IsRun(states, actions) && n < |states| && id in states[n].rows
    ensures states[n].rows[id].dispatchAttempts == BegunCount(states[n].log, id)
    ensures CallCount(states[n].log, id) <= states[n].rows[id].dispatchAttempts
  {
    CountsInRun(states, actions, n);
    assert Counted(states[n], id);
  }

  // ------------------------------------------- asking again for the transition

  /** The event writes the error code of the notification. */
  ghost predicate Codes(e: Event, id: string) {
    (e.WasSaved? || e.WasFenced?) && e.id == id
  }

  ghost function CodeOf(e: Event): string
    requires e.WasSaved? || e.WasFenced?
  {
    if e.WasSaved? then SaveCode(e.save) else LEASE_EXPIRED
  }

  /** The last error code written for a notification. */
  ghost function LastCode(log: seq<Event>, id: string): string {
    if log == [] then ""
    else if Codes(log[|log| - 1], id) then CodeOf(log[|log| - 1])
    else LastCode(log[..|log| - 1], id)
  }

  lemma LastCodeAppend(log: seq<Event>, e: Event, id: string)
    ensures LastCode(log + [e], id) == if Codes(e, id) then CodeOf(e) else LastCode(log, id)
  {
    assert (log + [e])[..|log + [e]| - 1] == log;
  }

  ghost predicate RowCoded(s: System, id: string) {
    && (id in s.rows ==> s.rows[id].lastError == LastCode(s.log, id))
    && (id !in s.eventOf ==> LastCode(s.log, id) == "")
  }

  /** The claim of a token, with the code its worker read. */
  ghost predicate ClaimRead(e: Event, id: string, token: string, code: string) {
    e.WasClaimed? && e.id == id && e.token == token && e.n.lastError == code
  }

  ghost predicate ClaimLogged(log: seq<Event>, n: nat, id: string, token: string, code: string)
    requires n <= |log|
  {
    exists c | 0 <= c < n :: ClaimRead(log[c], id, token, code)
  }

  ghost predicate WorkerRead(s: System, w: nat)
    requires w in s.workers
  {
    var k := s.workers[w];
    k.Deciding? ==> ClaimLogged(s.log, |s.log|, k.n.id, k.token, k.n.lastError)
  }

  ghost predicate EventRead(log: seq<Event>, i: nat)
    requires i < |log|
  {
    && (log[i].WasClaimed? ==> log[i].n.lastError == LastCode(log[..i], log[i].id))
    && (log[i].WasDecided? ==> ClaimLogged(log, i, log[i].id, log[i].token, log[i].n.lastError))
  }

  ghost predicate Read(s: System) {
    && (forall id :: RowCoded(s, id))
    && (forall w | w in s.workers :: WorkerRead(s, w))
    && (forall i | 0 <= i < |s.log| :: EventRead(s.log, i))
  }

  lemma ClaimStays(log: seq<Event>, more: seq<Event>, n: nat, m: nat, id: string, token: string, code: string)
    requires n <= |log| <= |more| && n <= m <= |more| && forall i | 0 <= i < |log| :: more[i] == log[i]
    requires ClaimLogged(log, n, id, token, code)
    ensures ClaimLogged(more, m, id, token, code)
  {
    var c :| 0 <= c < n && ClaimRead(log[c], id, token, code);
    assert ClaimRead(more[c], id, token, code);
  }

  lemma RowCodedSave(s: System, a: Action, id: string)
    requires Names(s) && RowCoded(s, id) && Enabled(s, a) && a.SaveClaim?
    ensures RowCoded(Step(s, a), id)
  {
    var k := s.workers[a.w];
    assert WorkerKnown(s, a.w);
    LastCodeAppend(s.log, WasSaved(k.n.id, k.token, k.save), id);
  }

  lemma RowCodedFence(s: System, a: Action, id: string)
    requires Names(s) && RowCoded(s, id) && Enabled(s, a) && a.FenceExpired?
    ensures RowCoded(Step(s, a), id)
  {
    assert RowKnown(s, a.id);
    LastCodeAppend(s.log, WasFenced(a.id), id);
  }

  /** Nothing else writes a code. */
  lemma RowCodedOther(s: System, a: Action, id: string)
    requires RowCoded(s, id) && Enabled(s, a) && !a.SaveClaim? && !a.FenceExpired?
    ensures RowCoded(Step(s, a), id)
  {
    LogGrows(s, a);
    if |Step(s, a).log| > |s.log| {
      LastCodeAppend(s.log, Step(s, a).log[|s.log|], id);
    }
  }

  lemma RowCodedStep(s: System, a: Action, id: string)
    requires Names(s) && RowCoded(s, id) && Enabled(s, a)
    ensures RowCoded(Step(s, a), id)
  {
    if a.SaveClaim? {
      RowCodedSave(s, a, id);
    } else if a.FenceExpired? {
      RowCodedFence(s, a, id);
    } else {
      RowCodedOther(s, a, id);
    }
  }

  lemma WorkerReadStep(s: System, a: Action, w: nat)
    requires Names(s) && Enabled(s, a) && w in Step(s, a).workers
    requires w in s.workers ==> WorkerRead(s, w)
    ensures WorkerRead(Step(s, a), w)
  {
    var s' := Step(s, a);
    LogIsPrefix(s, a);
    var k := s'.workers[w];
    if k.Deciding? {
      if a.TakeClaim? && a.w == w {
        assert RowKnown(s, a.id);
        assert ClaimRead(s'.log[|s.log|], k.n.id, k.token, k.n.lastError);
      } else {
        ClaimStays(s.log, s'.log, |s.log|, |s'.log|, k.n.id, k.token, k.n.lastError);
      }
    }
  }

  lemma EventReadStep(s: System, a: Action, i: nat)
    requires Read(s) && Enabled(s, a) && i < |Step(s, a).log|
    ensures EventRead(Step(s, a).log, i)
  {
    var s' := Step(s, a);
    LogIsPrefix(s, a);
    if i < |s.log| {
      assert EventRead(s.log, i);
      assert s'.log[..i] == s.log[..i];
      if s.log[i].WasDecided? {
        ClaimStays(s.log, s'.log, i, i, s.log[i].id, s.log[i].token, s.log[i].n.lastError);
      }
    } else {
      assert s'.log[..i] == s.log;
      if a.TakeClaim? {
        assert RowCoded(s, a.id);
      }
      if a.DecideClaim? {
        var k := s.workers[a.w];
        assert WorkerRead(s, a.w);
        ClaimStays(s.log, s'.log, i, i, k.n.id, k.token, k.n.lastError);
      }
    }
  }

  lemma {:induction false} ReadInRun(states: seq<System>, actions: seq<Action>, n: nat)
    requires IsRun(states, actions) && n < |states|
    ensures Read(states[n])
  {
    if n > 0 {
      var s, a := states[n - 1], actions[n - 1];
      ReadInRun(states, actions, n - 1);
      CallsInRun(states, actions, n - 1);
      forall id
        ensures RowCoded(states[n], id)
      {
        assert RowCoded(s, id);
        RowCodedStep(s, a, id);
      }
      forall w | w in states[n].workers
        ensures WorkerRead(states[n], w)
      {
        assert w in s.workers ==> WorkerRead(s, w);
        WorkerReadStep(s, a, w);
      }
      forall i | 0 <= i < |states[n].log|
        ensures EventRead(states[n].log, i)
      {
        EventReadStep(s, a, i);
      }
    }
  }

  /** The event writes a code that is not one of the two transition codes. */
  ghost predicate ForgetsTransition(e: Event, id: string) {
    Codes(e, id) && !IsTransitionCode(Trim(CodeOf(e)))
  }

  /** If some code had a property and the last one does not, a later code does not. */
  lemma {:induction false} LastCodeChanged(log: seq<Event>, id: string, k: nat, p: string -> bool) returns (m: nat)
    requires k < |log| && Codes(log[k], id) && p(CodeOf(log[k]))
    requires !p(LastCode(log, id))
    ensures k < m < |log| && Codes(log[m], id) && !p(CodeOf(log[m]))
  {
    var n := |log| - 1;
    if Codes(log[n], id) {
      m := n;
    } else {
      m := LastCodeChanged(log[..n], id, k, p);
    }
  }

  /** The claim meets a broadcast that is starting, and can ask for the transition. */
  ghost predicate MeetsLiveStarting(n: Row, o: Observation) {
    && o.stream.StreamFound? && EqualFold(Trim(o.stream.status), "live")
    && !IsStreamKey(n.mode)
    && o.provider.client && o.provider.credentials == CredentialsOk && o.provider.transitionClient
    && o.provider.first.ReadOk? && Status(o.provider.first.text) == "livestarting"
  }

  lemma LifecycleRequests(n: Row, p: Provider)
    ensures CheckLifecycle(n, p).requested <==>
            && !IsStreamKey(n.mode) && p.client && p.credentials == CredentialsOk && p.transitionClient
            && p.first.ReadOk? && Status(p.first.text) == "livestarting" && !IsTransitionCode(Trim(n.lastError))
  {
  }

  lemma RequestsExactly(n: Row, o: Observation)
    ensures Requests(n, o) <==> MeetsLiveStarting(n, o) && !IsTransitionCode(Trim(n.lastError))
  {
    LifecycleRequests(n, o.provider);
  }

  /**
   In every run, exactly when a claim asks the provider for the live transition:
   it meets a starting broadcast, and the last code written for the notification
   before the claim was taken is neither of the two transition codes.
   */
  lemma TransitionAskedExactlyWhen(states: seq<System>, actions: seq<Action>, n: nat, j: nat) returns (c: nat)
    requires IsRun(states, actions) && n < |states| && j < |states[n].log| && states[n].log[j].WasDecided?
    ensures c < j
    ensures var log, e := states[n].log, states[n].log[j];
            && log[c].WasClaimed? && log[c].id == e.id && log[c].token == e.token
            && (Requests(e.n, e.o) <==> MeetsLiveStarting(e.n, e.o) && !IsTransitionCode(Trim(LastCode(log[..c], e.id))))
  {
    ReadInRun(states, actions, n);
    var log := states[n].log;
    var e := log[j];
    assert EventRead(log, j);
    c :| 0 <= c < j && ClaimRead(log[c], e.id, e.token, e.n.lastError);
    assert EventRead(log, c);
    RequestsExactly(e.n, e.o);
  }

  /** If a transition code was written and the last code is none, another code was written in between. */
  lemma TransitionForgotten(log: seq<Event>, c: nat, id: string, k: nat) returns (m: nat)
    requires k < c <= |log| && Codes(log[k], id) && IsTransitionCode(Trim(CodeOf(log[k])))
    requires !IsTransitionCode(Trim(LastCode(log[..c], id)))
    ensures k < m < c && ForgetsTransition(log[m], id)
  {
    m := LastCodeChanged(log[..c], id, k, code => IsTransitionCode(Trim(code)));
  }

  /** A claim that saves the retry of its transition request saves a code that stops the next request. */
  lemma RequestSavesItsCode(n: Row, o: Observation, now: int)
    requires Requests(n, o) && !CheckLifecycle(n, o.provider).ready && !CheckLifecycle(n, o.provider).terminal
    ensures Decide(n, o, now).Finish? && Decide(n, o, now).save.Retry?
    ensures IsTransitionCode(Trim(SaveCode(Decide(n, o, now).save)))
  {
    TransitionCodesAreCodes(CheckLifecycle(n, o.provider).code);
  }

  /** A broadcast that stays at liveStarting, for a stream that is live. */
  const STARTING := Observation(
    StreamFound("live"),
    Provider(true, CredentialsOk, ReadOk("livestarting"), true, false, ReadError),
    AssignmentsError, false)

  const QUEUED := Row("n", "s", "e", "b", "live_api", "", AwaitingYouTubeLive, 0, 0, Some(0), None, "", "", None, 0)

  lemma StartingRequests(n: Row)
    requires n.mode == "live_api" && !IsTransitionCode(Trim(n.lastError))
    ensures Requests(n, STARTING)
  {
    TrimOfTrimmed("live");
    TrimOfTrimmed("livestarting");
    assert Lower("livestarting") == "livestarting";
    RequestsExactly(n, STARTING);
  }

  /** A waiting notification without a code, claimed and met by a starting broadcast, asks. */
  lemma ClaimAndAsk(s: System, token: string, now: int) returns (t: System)
    requires 0 !in s.workers && token !in s.tokens && "n" in s.rows
    requires var row := s.rows["n"]; row.id == "n" && row.mode == "live_api" && !IsTransitionCode(Trim(row.lastError)) && Due(row, now)
    ensures var take, decide := TakeClaim(0, "n", token, now, now + 120), DecideClaim(0, STARTING, now);
            Enabled(s, take) && Enabled(Step(s, take), decide) && t == Step(Step(s, take), decide)
    ensures var row := Claim(s.rows["n"], token, now + 120);
            && t.log == s.log + [WasClaimed("n", token, row), WasDecided("n", token, row, STARTING, now)]
            && t.rows == s.rows["n" := row] && t.tokens == s.tokens + {token} && 0 in t.workers && t.workers.Keys == s.workers.Keys + {0}
            && Requests(row, STARTING)
  {
    var take, decide := TakeClaim(0, "n", token, now, now + 120), DecideClaim(0, STARTING, now);
    var row := Claim(s.rows["n"], token, now + 120);
    t := Step(Step(s, take), decide);
    StartingRequests(row);
    assert t.log == s.log + [WasClaimed("n", token, row)] + [WasDecided("n", token, row, STARTING, now)];
  }

  /**
   "At most once" is not true of every run: a worker that dies after asking and
   before saving leaves no code behind, and the next claim asks again.
   */
  lemma TransitionCanBeAskedTwice() returns (states: seq<System>, actions: seq<Action>)
    ensures IsRun(states, actions)
    ensures var log := states[|actions|].log;
            && |log| == 4 && log[1].WasDecided? && log[3].WasDecided? && log[1].id == log[3].id
            && Requests(log[1].n, log[1].o) && Requests(log[3].n, log[3].o)
  {
    states, actions := Queued();
    NoCodeIsNone();
    states, actions := AskedOnce(states, actions, "t1", 0);
    RunOn(states, actions, Crash(0));
    states, actions := states + [Step(states[|actions|], Crash(0))], actions + [Crash(0)];
    assert "t1"[1] != "t2"[1];
    states, actions := AskedOnce(states, actions, "t2", 120);
  }

  lemma Queued() returns (states: seq<System>, actions: seq<Action>)
    ensures IsRun(states, actions) && actions == [Enqueue(QUEUED)]
    ensures Fresh(states[|actions|])
  {
    var s := Step(INITIAL, Enqueue(QUEUED));
    states, actions := [INITIAL, s], [Enqueue(QUEUED)];
  }

  /** A run in which the notification is claimed once more and asks. */
  lemma AskedOnce(states: seq<System>, actions: seq<Action>, token: string, now: int) returns (longer: seq<System>, more: seq<Action>)
    requires IsRun(states, actions)
    requires var s := states[|actions|];
             && 0 !in s.workers && token !in s.tokens && "n" in s.rows
             && var row := s.rows["n"]; row.id == "n" && row.mode == "live_api" && !IsTransitionCode(Trim(row.lastError)) && Due(row, now)
    ensures IsRun(longer, more)
    ensures var s, t := states[|actions|], longer[|more|];
            var row := Claim(s.rows["n"], token, now + 120);
            && t.log == s.log + [WasClaimed("n", token, row), WasDecided("n", token, row, STARTING, now)]
            && t.rows == s.rows["n" := row] && t.tokens == s.tokens + {token} && 0 in t.workers
            && Requests(row, STARTING)
  {
    var take, decide := TakeClaim(0, "n", token, now, now + 120), DecideClaim(0, STARTING, now);
    var s := states[|actions|];
    var t := ClaimAndAsk(s, token, now);
    RunOn(states, actions, take);
    longer, more := states + [Step(s, take)], actions + [take];
    RunOn(longer, more, decide);
    longer, more := longer + [t], more + [decide];
  }

  lemma NoCodeIsNone()
    ensures !IsTransitionCode(Trim(""))
  {
    TrimOfTrimmed("");
  }

  // ------------------------------------------------------- asked again without a crash

  const UNREADABLE := "youtube_broadcast_lifecycle_unavailable"

  /** The provider cannot be read. */
  const FAILING := Observation(
    StreamFound("live"), Provider(true, CredentialsOk, ReadError, true, false, ReadError), AssignmentsError, false)

  /** A waiting notification. */
  ghost predicate Waiting(s: System, now: int) {
    && 0 !in s.workers && "n" in s.rows
    && var row := s.rows["n"];
       row.id == "n" && row.mode == "live_api" && row.state == AwaitingYouTubeLive && row.nextAttempt.Some? && row.nextAttempt.value <= now
  }

  /** A claim with this observation will decide to wait on with this code. */
  ghost predicate CanWait(s: System, token: string, o: Observation, now: int, lifecycle: string, code: string) {
    && Waiting(s, now) && token !in s.tokens && Trim(token) != "" && NormalizeCode(code) == code != ""
    && Decide(Claim(s.rows["n"], token, now + 120), o, now) == Finish(Retry(AwaitingYouTubeLive, lifecycle, code, now + 15))
  }

  /** What such a claim leaves behind. */
  ghost predicate WaitsOn(s: System, t: System, token: string, o: Observation, now: int, code: string)
    requires "n" in s.rows
  {
    && Waiting(t, now + 15) && t.rows["n"].lastError == code && t.tokens == s.tokens + {token}
    && |t.log| == |s.log| + 3 && t.log[..|s.log|] == s.log
    && t.log[|s.log| + 1] == WasDecided("n", token, Claim(s.rows["n"], token, now + 120), o, now)
  }

  ghost predicate ThreeSteps(s: System, a: Action, b: Action, c: Action, t: System) {
    Enabled(s, a) && Enabled(Step(s, a), b) && Enabled(Step(Step(s, a), b), c) && t == Step(Step(Step(s, a), b), c)
  }

  /** A claim that decides to wait on, and saves it. */
  lemma ClaimAndWait(s: System, token: string, o: Observation, now: int, lifecycle: string, code: string) returns (t: System)
    requires CanWait(s, token, o, now, lifecycle, code)
    ensures ThreeSteps(s, TakeClaim(0, "n", token, now, now + 120), DecideClaim(0, o, now), SaveClaim(0, now), t)
    ensures WaitsOn(s, t, token, o, now, code)
  {
    var take, decide, save := TakeClaim(0, "n", token, now, now + 120), DecideClaim(0, o, now), SaveClaim(0, now);
    t := Step(Step(Step(s, take), decide), save);
  }

  /** The three steps of such a claim make a longer run. */
  lemma WaitedOnce(states: seq<System>, actions: seq<Action>, token: string, o: Observation, now: int, lifecycle: string, code: string)
    returns (longer: seq<System>, more: seq<Action>)
    requires IsRun(states, actions) && NeverCrashes(actions)
    requires CanWait(states[|actions|], token, o, now, lifecycle, code)
    ensures IsRun(longer, more) && NeverCrashes(more)
    ensures WaitsOn(states[|actions|], longer[|more|], token, o, now, code)
  {
    var take, decide, save := TakeClaim(0, "n", token, now, now + 120), DecideClaim(0, o, now), SaveClaim(0, now);
    var t := ClaimAndWait(states[|actions|], token, o, now, lifecycle, code);
    longer, more := RunThree(states, actions, take, decide, save, t);
  }

  lemma RunThree(states: seq<System>, actions: seq<Action>, a: Action, b: Action, c: Action, t: System)
    returns (longer: seq<System>, more: seq<Action>)
    requires IsRun(states, actions) && ThreeSteps(states[|actions|], a, b, c, t)
    ensures IsRun(longer, more) && more == actions + [a, b, c] && longer[|more|] == t
  {
    var s1 := Step(states[|actions|], a);
    RunOn(states, actions, a);
    RunOn(states + [s1], actions + [a], b);
    RunOn(states + [s1] + [Step(s1, b)], actions + [a] + [b], c);
    longer := states + [s1] + [Step(s1, b)] + [t];
    more := actions + [a] + [b] + [c];
  }

  ghost predicate NeverCrashes(actions: seq<Action>) {
    forall i | 0 <= i < |actions| :: !actions[i].Crash?
  }

  lemma StartingDecides(n: Row, now: int)
    requires n.mode == "live_api" && !IsTransitionCode(Trim(n.lastError))
    ensures Requests(n, STARTING)
    ensures Decide(n, STARTING, now) == Finish(Retry(AwaitingYouTubeLive, "livestarting", TRANSITION_REQUESTED, now + 15))
    ensures NormalizeCode(TRANSITION_REQUESTED) == TRANSITION_REQUESTED != ""
  {
    StartingRequests(n);
    TransitionCodesAreCodes(TRANSITION_REQUESTED);
    assert Status("livestarting") == "livestarting";
  }

  lemma FailingDecides(n: Row, now: int)
    requires n.mode == "live_api"
    ensures Decide(n, FAILING, now) == Finish(Retry(AwaitingYouTubeLive, n.lifecycle, UNREADABLE, now + 15))
  {
    TrimOfTrimmed("live");
  }

  lemma UnreadableIsCode()
    ensures NormalizeCode(UNREADABLE) == UNREADABLE != "" && Trim(UNREADABLE) == UNREADABLE
  {
    assert forall i | 0 <= i < |UNREADABLE| :: IsCodeChar(UNREADABLE[i]);
    CodeIsNormal(UNREADABLE);
  }

  lemma UnreadableIsNoTransition()
    ensures !IsTransitionCode(UNREADABLE)
  {
    assert UNREADABLE[8] == 'b' && TRANSITION_REQUESTED[8] == 'l' && TRANSITION_UNKNOWN[8] == 'l';
  }

  /** The decision at that place of the log asked for the transition of notification n. */
  ghost predicate AsksAt(log: seq<Event>, i: nat) {
    i < |log| && log[i].WasDecided? && log[i].id == "n" && Requests(log[i].n, log[i].o)
  }

  lemma StillAsks(log: seq<Event>, more: seq<Event>, i: nat)
    requires |log| <= |more| && more[..|log|] == log && AsksAt(log, i)
    ensures AsksAt(more, i)
  {
    assert more[i] == more[..|log|][i];
  }

  /** Queued, and nothing else has happened. */
  ghost predicate Fresh(s: System) {
    Waiting(s, 0) && s.rows["n"].lastError == "" && s.tokens == {} && s.log == []
  }

  /** Asked once; the transition code is saved. */
  ghost predicate Asked(s: System) {
    Waiting(s, 15) && s.tokens == {"t1"} && |s.log| == 3 && AsksAt(s.log, 1)
  }

  /** Another code has been written over it. */
  ghost predicate Overwritten(s: System) {
    Waiting(s, 30) && s.rows["n"].lastError == UNREADABLE && s.tokens == {"t1", "t2"} && |s.log| == 6 && AsksAt(s.log, 1)
  }

  ghost predicate AskedAgain(s: System) {
    |s.log| == 9 && AsksAt(s.log, 1) && AsksAt(s.log, 7)
  }

  lemma FreshCanWait(s: System)
    requires Fresh(s)
    ensures CanWait(s, "t1", STARTING, 0, "livestarting", TRANSITION_REQUESTED)
    ensures Requests(Claim(s.rows["n"], "t1", 120), STARTING)
  {
    NoCodeIsNone();
    TokensAreNotBlank();
    StartingDecides(Claim(s.rows["n"], "t1", 120), 0);
  }

  lemma FreshAsks(s: System, t: System)
    requires Fresh(s) && WaitsOn(s, t, "t1", STARTING, 0, TRANSITION_REQUESTED) && Requests(Claim(s.rows["n"], "t1", 120), STARTING)
    ensures Asked(t)
  {
    FirstAsks(s, t, "t1", 0, TRANSITION_REQUESTED);
  }

  lemma AskedCanWait(s: System)
    requires Asked(s)
    ensures CanWait(s, "t2", FAILING, 15, s.rows["n"].lifecycle, UNREADABLE)
    ensures forall t | WaitsOn(s, t, "t2", FAILING, 15, UNREADABLE) :: Overwritten(t)
  {
    TokensAreNotBlank();
    FailingDecides(Claim(s.rows["n"], "t2", 135), 15);
    UnreadableIsCode();
    forall t | WaitsOn(s, t, "t2", FAILING, 15, UNREADABLE)
      ensures Overwritten(t)
    {
      StillAsks(s.log, t.log, 1);
    }
  }

  lemma OverwrittenCanWait(s: System)
    requires Overwritten(s)
    ensures CanWait(s, "t3", STARTING, 30, "livestarting", TRANSITION_REQUESTED)
    ensures Requests(Claim(s.rows["n"], "t3", 150), STARTING)
  {
    TokensAreNotBlank();
    UnreadableIsCode();
    UnreadableIsNoTransition();
    StartingDecides(Claim(s.rows["n"], "t3", 150), 30);
  }

  lemma OverwrittenAsks(s: System, t: System)
    requires Overwritten(s) && WaitsOn(s, t, "t3", STARTING, 30, TRANSITION_REQUESTED)
    requires Requests(Claim(s.rows["n"], "t3", 150), STARTING)
    ensures AskedAgain(t)
  {
    StillAsks(s.log, t.log, 1);
    FirstAsks(s, t, "t3", 30, TRANSITION_REQUESTED);
  }

  /** A claim of a starting broadcast that asks is in the log. */
  lemma FirstAsks(s: System, t: System, token: string, now: int, code: string)
    requires "n" in s.rows && WaitsOn(s, t, token, STARTING, now, code) && Requests(Claim(s.rows["n"], token, now + 120), STARTING)
    ensures AsksAt(t.log, |s.log| + 1)
  {
  }

  /**
   Nor without a crash: a claim that asked saves its transition code, one that
   cannot read the provider writes its own code over it, and the next asks again.
   */
  lemma TransitionCanBeAskedTwiceWithoutCrash() returns (states: seq<System>, actions: seq<Action>)
    ensures IsRun(states, actions) && NeverCrashes(actions)
    ensures var log := states[|actions|].log; |log| == 9 && AsksAt(log, 1) && AsksAt(log, 7)
  {
    states, actions := Queued();
    var s := states[|actions|];
    FreshCanWait(s);
    states, actions := WaitedOnce(states, actions, "t1", STARTING, 0, "livestarting", TRANSITION_REQUESTED);
    FreshAsks(s, states[|actions|]);
    AskedCanWait(states[|actions|]);
    states, actions := WaitedOnce(states, actions, "t2", FAILING, 15, states[|actions|].rows["n"].lifecycle, UNREADABLE);
    assert Overwritten(states[|actions|]);
    s := states[|actions|];
    OverwrittenCanWait(s);
    states, actions := WaitedOnce(states, actions, "t3", STARTING, 30, "livestarting", TRANSITION_REQUESTED);
    OverwrittenAsks(s, states[|actions|]);
  }

  lemma TokensAreNotBlank()
    ensures Trim("t1") != "" && Trim("t2") != "" && Trim("t3") != ""
    ensures "t1" != "t2" && "t1" != "t3" && "t2" != "t3"
  {
    assert "t1"[1] != "t2"[1] && "t1"[1] != "t3"[1] && "t2"[1] != "t3"[1];
  }
}
