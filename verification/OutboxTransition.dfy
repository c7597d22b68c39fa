/**
 How often the live transition is asked for: the trace of every save back to its
 decision, and from it the runs in which one notification asks at most once.
 */
module OutboxTransition {
  import opened Text
  import opened OutboxStore
  import opened OutboxDispatch
  import opened OutboxProtocol
  import opened OutboxHistory

  // --------------------------------------------------- where a save comes from

  /** The decision of this claim was to end with this save. */
  ghost predicate Finishes(e: Event, id: string, token: string, save: Save) {
    e.WasDecided? && e.id == id && e.token == token && e.n.id == id && Decide(e.n, e.o, e.now) == Finish(save)
  }

  ghost predicate FinishedAs(log: seq<Event>, n: nat, id: string, token: string, save: Save)
    requires n <= |log|
  {
    exists d | 0 <= d < n :: Finishes(log[d], id, token, save)
  }

  ghost predicate IsCall(e: Event, id: string, token: string) {
    e.WasCalled? && e.id == id && e.token == token
  }

  /** The save is what the dispatcher makes of the Bot's answer. */
  ghost predicate Fits(save: Save, r: DispatchResult) {
    exists n: Row, lifecycle: string, now: int :: save == AfterBot(n, r, lifecycle, now)
  }

  ghost predicate AnswerOf(e: Event, id: string, token: string, save: Save) {
    IsCall(e, id, token) && Fits(save, e.result)
  }

  ghost predicate AnsweredAs(log: seq<Event>, n: nat, id: string, token: string, save: Save)
    requires n <= |log|
  {
    exists c | 0 <= c < n :: AnswerOf(log[c], id, token, save)
  }

  ghost predicate Begins(e: Event, id: string) {
    e.WasBegun? && e.id == id
  }

  ghost predicate Begun(log: seq<Event>, n: nat, id: string)
    requires n <= |log|
  {
    exists b | 0 <= b < n :: Begins(log[b], id)
  }

  ghost predicate Claims(e: Event, id: string) {
    e.WasClaimed? && e.id == id
  }

  /** The token of the last claim of a notification. */
  ghost function LastToken(log: seq<Event>, id: string): Option<string> {
    if log == [] then None
    else if Claims(log[|log| - 1], id) then Some(log[|log| - 1].token)
    else LastToken(log[..|log| - 1], id)
  }

  ghost predicate Decides(e: Event, token: string) {
    e.WasDecided? && e.token == token
  }

  ghost predicate Undecided(log: seq<Event>, token: string) {
    forall i | 0 <= i < |log| :: !Decides(log[i], token)
  }

  ghost predicate WorkerTraced(s: System, w: nat)
    requires w in s.workers
  {
    var k := s.workers[w];
    && (k.Deciding? ==> Undecided(s.log, k.token))
    && (k.Saving? && k.answer.None? ==> FinishedAs(s.log, |s.log|, k.n.id, k.token, k.save))
    && (k.Saving? && k.answer.Some? ==> AnsweredAs(s.log, |s.log|, k.n.id, k.token, k.save))
  }

  ghost predicate RowTraced(s: System, id: string)
    requires id in s.rows
  {
    var r := s.rows[id];
    && (r.lease.Some? ==> LastToken(s.log, id) == Some(r.lease.value.token))
    && (r.state == BotDispatching ==> Begun(s.log, |s.log|, id))
  }

  ghost predicate EventTraced(log: seq<Event>, k: nat)
    requires k < |log|
  {
    var e := log[k];
    && (e.WasSaved? ==> LastToken(log[..k], e.id) == Some(e.token))
    && (e.WasSaved? ==> FinishedAs(log, k, e.id, e.token, e.save) || AnsweredAs(log, k, e.id, e.token, e.save))
    && (e.WasBegun? ==> Approved(log, k, e.id, e.token))
    && (e.WasFenced? ==> Begun(log, k, e.id))
  }

  /** Two claims, two decisions or two calls of one token. */
  ghost predicate Twins(log: seq<Event>, i: nat, j: nat)
    requires i < |log| && j < |log|
  {
    || (log[i].WasClaimed? && log[j].WasClaimed? && log[i].token == log[j].token)
    || (log[i].WasDecided? && log[j].WasDecided? && log[i].token == log[j].token)
    || (log[i].WasCalled? && log[j].WasCalled? && log[i].token == log[j].token)
  }

  ghost predicate Traced(s: System) {
    && (forall w | w in s.workers :: WorkerTraced(s, w))
    && (forall id | id in s.rows :: RowTraced(s, id))
    && (forall k | 0 <= k < |s.log| :: EventTraced(s.log, k))
    && (forall i, j | 0 <= i < j < |s.log| :: !Twins(s.log, i, j))
  }

  // ------------------------------------------------------------ it stays that way

  lemma LastTokenAppend(log: seq<Event>, e: Event, id: string)
    ensures LastToken(log + [e], id) == if Claims(e, id) then Some(e.token) else LastToken(log, id)
  {
    assert (log + [e])[..|log + [e]| - 1] == log;
  }

  lemma TraceStays(log: seq<Event>, more: seq<Event>, n: nat, m: nat, id: string, token: string, save: Save)
    requires n <= |log| <= |more| && n <= m <= |more| && forall i | 0 <= i < |log| :: more[i] == log[i]
    ensures FinishedAs(log, n, id, token, save) ==> FinishedAs(more, m, id, token, save)
    ensures AnsweredAs(log, n, id, token, save) ==> AnsweredAs(more, m, id, token, save)
    ensures Begun(log, n, id) ==> Begun(more, m, id)
  {
    if FinishedAs(log, n, id, token, save) {
      var d :| 0 <= d < n && Finishes(log[d], id, token, save);
      assert Finishes(more[d], id, token, save);
    }
    if AnsweredAs(log, n, id, token, save) {
      var c :| 0 <= c < n && AnswerOf(log[c], id, token, save);
      assert AnswerOf(more[c], id, token, save);
    }
    if Begun(log, n, id) {
      var b :| 0 <= b < n && Begins(log[b], id);
      assert Begins(more[b], id);
    }
  }

  /** A worker that an action does not touch. */
  lemma WorkerTracedThrough(s: System, a: Action, w: nat)
    requires Names(s) && Enabled(s, a) && w in s.workers && w in Step(s, a).workers
    requires WorkerTraced(s, w) && Step(s, a).workers[w] == s.workers[w]
    ensures WorkerTraced(Step(s, a), w)
  {
    var k := s.workers[w];
    LogIsPrefix(s, a);
    LogGrows(s, a);
    if k.Saving? {
      TraceStays(s.log, Step(s, a).log, |s.log|, |Step(s, a).log|, k.n.id, k.token, k.save);
    } else if k.Deciding? && a.DecideClaim? {
      assert a.w != w ==> !SameToken(s, a.w, w);
    }
  }

  lemma WorkerTracedClaim(s: System, a: Action)
    requires Names(s) && Enabled(s, a) && a.TakeClaim?
    ensures WorkerTraced(Step(s, a), a.w)
  {
    var s' := Step(s, a);
    forall i | 0 <= i < |s'.log|
      ensures !Decides(s'.log[i], a.token)
    {
      assert i < |s.log| ==> EventKnown(s, s.log[i]);
    }
  }

  lemma WorkerTracedDecide(s: System, a: Action)
    requires Names(s) && Enabled(s, a) && a.DecideClaim?
    ensures WorkerTraced(Step(s, a), a.w)
  {
    var s', k := Step(s, a), s.workers[a.w];
    var k' := s'.workers[a.w];
    if k'.Saving? {
      assert Finishes(s'.log[|s.log|], k.n.id, k.token, k'.save);
    }
  }

  lemma WorkerTracedCall(s: System, a: Action)
    requires Enabled(s, a) && (a.BeginDispatch? || a.CallBot?) && a.w in Step(s, a).workers
    ensures WorkerTraced(Step(s, a), a.w)
  {
    var s', k := Step(s, a), s.workers[a.w];
    if a.CallBot? {
      var save := AfterBot(k.n, a.result, k.lifecycle, a.now);
      assert Fits(save, a.result);
      assert AnswerOf(s'.log[|s.log|], k.n.id, k.token, save);
    }
  }

  lemma WorkerTracedStep(s: System, a: Action, w: nat)
    requires Names(s) && Traced(s) && Enabled(s, a) && w in Step(s, a).workers
    ensures WorkerTraced(Step(s, a), w)
  {
    if w in s.workers && Step(s, a).workers[w] == s.workers[w] {
      assert WorkerTraced(s, w);
      WorkerTracedThrough(s, a, w);
    } else if a.TakeClaim? {
      WorkerTracedClaim(s, a);
    } else if a.DecideClaim? {
      WorkerTracedDecide(s, a);
    } else {
      WorkerTracedCall(s, a);
    }
  }

  /** A row that an action does not touch. */
  lemma RowTracedThrough(s: System, a: Action, id: string)
    requires Enabled(s, a) && id in s.rows && RowTraced(s, id) && !(a.TakeClaim? && a.id == id)
    requires id in Step(s, a).rows && Step(s, a).rows[id] == s.rows[id]
    ensures RowTraced(Step(s, a), id)
  {
    var s' := Step(s, a);
    LogGrows(s, a);
    LogIsPrefix(s, a);
    if |s'.log| > |s.log| {
      LastTokenAppend(s.log, s'.log[|s.log|], id);
    }
    TraceStays(s.log, s'.log, |s.log|, |s'.log|, id, "", MarkUnknown("", ""));
  }

  lemma RowTracedClaim(s: System, a: Action)
    requires Enabled(s, a) && a.TakeClaim?
    ensures RowTraced(Step(s, a), a.id)
  {
    LastTokenAppend(s.log, Step(s, a).log[|s.log|], a.id);
  }

  lemma RowTracedBegin(s: System, a: Action)
    requires Enabled(s, a) && a.BeginDispatch? && RowTraced(s, s.workers[a.w].n.id)
    ensures RowTraced(Step(s, a), s.workers[a.w].n.id)
  {
    var s', id := Step(s, a), s.workers[a.w].n.id;
    LastTokenAppend(s.log, s'.log[|s.log|], id);
    assert Begins(s'.log[|s.log|], id);
  }

  lemma RowTracedSave(s: System, a: Action)
    requires Enabled(s, a) && a.SaveClaim?
    ensures RowTraced(Step(s, a), s.workers[a.w].n.id)
  {
  }

  lemma RowUntouched(s: System, a: Action, id: string)
    requires Names(s) && Enabled(s, a) && id in s.rows && id in Step(s, a).rows
    requires !((a.TakeClaim? || a.FenceExpired?) && a.id == id)
    requires !((a.BeginDispatch? || a.SaveClaim?) && s.workers[a.w].n.id == id)
    ensures Step(s, a).rows[id] == s.rows[id]
  {
    assert RowKnown(s, id);
  }

  lemma RowTracedStep(s: System, a: Action, id: string)
    requires Names(s) && Traced(s) && Enabled(s, a) && id in Step(s, a).rows
    ensures RowTraced(Step(s, a), id)
  {
    if id in s.rows {
      assert RowTraced(s, id);
      if a.TakeClaim? && a.id == id {
        RowTracedClaim(s, a);
      } else if a.BeginDispatch? && s.workers[a.w].n.id == id {
        RowTracedBegin(s, a);
      } else if a.SaveClaim? && s.workers[a.w].n.id == id {
        RowTracedSave(s, a);
      } else if !(a.FenceExpired? && a.id == id) {
        RowUntouched(s, a, id);
        RowTracedThrough(s, a, id);
      }
    }
  }

  lemma OldEventTraced(s: System, a: Action, k: nat)
    requires Enabled(s, a) && k < |s.log| && EventTraced(s.log, k)
    ensures k < |Step(s, a).log| && EventTraced(Step(s, a).log, k)
  {
    var s', e := Step(s, a), s.log[k];
    LogIsPrefix(s, a);
    assert s'.log[..k] == s.log[..k];
    if e.WasSaved? {
      TraceStays(s.log, s'.log, k, k, e.id, e.token, e.save);
    } else if e.WasBegun? {
      EvidenceStays(s.log, s'.log, k, k, e.id, e.token);
    } else if e.WasFenced? {
      TraceStays(s.log, s'.log, k, k, e.id, "", MarkUnknown("", ""));
    }
  }

  lemma NewSaveTraced(s: System, a: Action)
    requires Names(s) && Traced(s) && Enabled(s, a) && a.SaveClaim?
    ensures EventTraced(Step(s, a).log, |s.log|)
  {
    var s', k := Step(s, a), s.workers[a.w];
    assert s'.log[..|s.log|] == s.log;
    assert RowTraced(s, k.n.id) && WorkerTraced(s, a.w);
    TraceStays(s.log, s'.log, |s.log|, |s.log|, k.n.id, k.token, k.save);
  }

  lemma NewFenceTraced(s: System, a: Action)
    requires Traced(s) && Enabled(s, a) && a.FenceExpired?
    ensures EventTraced(Step(s, a).log, |s.log|)
  {
    var s' := Step(s, a);
    assert RowTraced(s, a.id);
    TraceStays(s.log, s'.log, |s.log|, |s.log|, a.id, "", MarkUnknown("", ""));
  }

  lemma NewBeginTraced(s: System, a: Action)
    requires Evidence(s) && Enabled(s, a) && a.BeginDispatch?
    ensures EventTraced(Step(s, a).log, |s.log|)
  {
    var s', k := Step(s, a), s.workers[a.w];
    assert WorkerApproved(s, a.w);
    EvidenceStays(s.log, s'.log, |s.log|, |s.log|, k.n.id, k.token);
  }

  lemma EventTracedStep(s: System, a: Action, k: nat)
    requires Names(s) && Evidence(s) && Traced(s) && Enabled(s, a) && k < |Step(s, a).log|
    ensures EventTraced(Step(s, a).log, k)
  {
    LogGrows(s, a);
    if k < |s.log| {
      assert EventTraced(s.log, k);
      OldEventTraced(s, a, k);
    } else if a.SaveClaim? {
      NewSaveTraced(s, a);
    } else if a.FenceExpired? {
      NewFenceTraced(s, a);
    } else if a.BeginDispatch? {
      NewBeginTraced(s, a);
    }
  }

  lemma TwinsStep(s: System, a: Action, i: nat, j: nat)
    requires Names(s) && Calls(s) && Traced(s) && Enabled(s, a) && i < j < |Step(s, a).log|
    ensures !Twins(Step(s, a).log, i, j)
  {
    LogGrows(s, a);
    LogIsPrefix(s, a);
    if j < |s.log| {
      assert !Twins(s.log, i, j);
    } else {
      assert EventKnown(s, s.log[i]);
      if a.DecideClaim? {
        assert WorkerTraced(s, a.w);
        assert !Decides(s.log[i], s.workers[a.w].token);
      }
      if a.CallBot? {
        assert CallAnswered(s, i, a.w);
      }
    }
  }

  lemma TracedStep(s: System, a: Action)
    requires Names(s) && Calls(s) && Evidence(s) && Traced(s) && Enabled(s, a)
    ensures Traced(Step(s, a))
  {
    var s' := Step(s, a);
    forall w | w in s'.workers
      ensures WorkerTraced(s', w)
    {
      WorkerTracedStep(s, a, w);
    }
    forall id | id in s'.rows
      ensures RowTraced(s', id)
    {
      RowTracedStep(s, a, id);
    }
    forall k | 0 <= k < |s'.log|
      ensures EventTraced(s'.log, k)
    {
      EventTracedStep(s, a, k);
    }
    forall i, j | 0 <= i < j < |s'.log|
      ensures !Twins(s'.log, i, j)
    {
      TwinsStep(s, a, i, j);
    }
  }

  lemma {:induction false} TracedInRun(states: seq<System>, actions: seq<Action>, n: nat)
    requires IsRun(states, actions) && n < |states|
    ensures Traced(states[n])
  {
    if n > 0 {
      TracedInRun(states, actions, n - 1);
      CallsInRun(states, actions, n - 1);
      EvidenceInRun(states, actions, n - 1);
      TracedStep(states[n - 1], actions[n - 1]);
    }
  }

  // -------------------------------------------------------------- asking again

  /** This claim saved a transition code. */
  ghost predicate SavesTransition(e: Event, id: string, token: string) {
    e.WasSaved? && e.id == id && e.token == token && IsTransitionCode(Trim(SaveCode(e.save)))
  }

  /** A code that is no transition code was written between two places of the log. */
  ghost predicate ForgottenBetween(log: seq<Event>, k: nat, c: nat, id: string)
    requires c <= |log|
  {
    exists m | k < m < c :: ForgetsTransition(log[m], id)
  }

  /**
   In every run, when two claims of a notification both ask for the transition,
   the first had not saved its transition code when the second was taken, or
   another code was written in between.
   */
  lemma AskedAgainOnlyAfterOtherCode(states: seq<System>, actions: seq<Action>, n: nat, i: nat, j: nat) returns (c: nat)
    requires IsRun(states, actions) && n < |states| && i < j < |states[n].log|
    requires var log := states[n].log;
             && log[i].WasDecided? && log[j].WasDecided? && log[i].id == log[j].id
             && Requests(log[i].n, log[i].o) && Requests(log[j].n, log[j].o)
    ensures var log := states[n].log;
            && c < j && Claims(log[c], log[j].id) && log[c].token == log[j].token
            && forall k | i < k < c && SavesTransition(log[k], log[i].id, log[i].token) :: ForgottenBetween(log, k, c, log[i].id)
  {
    c := TransitionAskedExactlyWhen(states, actions, n, j);
    var log := states[n].log;
    forall k | i < k < c && SavesTransition(log[k], log[i].id, log[i].token)
      ensures ForgottenBetween(log, k, c, log[i].id)
    {
      var m := TransitionForgotten(log, c, log[i].id, k);
    }
  }

  // -------------------------------------------------------------- at most once

  /** The claim found the broadcast starting, and it was still not live when the claim ended. */
  ghost predicate StaysStarting(e: Event) {
    && e.WasDecided? && MeetsLiveStarting(e.n, e.o)
    && !CheckLifecycle(e.n, e.o.provider).ready && !CheckLifecycle(e.n, e.o.provider).terminal
  }

  ghost predicate DecidesFor(e: Event, id: string) {
    e.WasDecided? && e.id == id
  }

  /** Every claim of the notification that reached a decision found the broadcast starting. */
  ghost predicate AlwaysStarting(log: seq<Event>, id: string) {
    forall d | 0 <= d < |log| && DecidesFor(log[d], id) :: StaysStarting(log[d])
  }

  ghost predicate SavedAfter(log: seq<Event>, d: nat)
    requires d < |log| && log[d].WasDecided?
  {
    exists k | d < k < |log| :: log[k].WasSaved? && log[k].id == log[d].id && log[k].token == log[d].token
  }

  /** Every claim of the notification that reached a decision saved its retry. */
  ghost predicate AlwaysSaved(log: seq<Event>, id: string) {
    forall d | 0 <= d < |log| && DecidesFor(log[d], id) :: SavedAfter(log, d)
  }

  /** Such a claim ends with a transition code, whether it asked or was told not to by the code it read. */
  lemma StartingSavesTransition(e: Event)
    requires StaysStarting(e)
    ensures Decide(e.n, e.o, e.now).Finish? && IsTransitionCode(Trim(SaveCode(Decide(e.n, e.o, e.now).save)))
  {
    RequestsExactly(e.n, e.o);
    if Requests(e.n, e.o) {
      RequestSavesItsCode(e.n, e.o, e.now);
    } else {
      TransitionCodesAreCodes(CheckLifecycle(e.n, e.o.provider).code);
    }
  }

  /** No such claim goes on to the Bot. */
  lemma NeverApproved(log: seq<Event>, n: nat, id: string, token: string)
    requires AlwaysStarting(log, id) && n <= |log|
    ensures !Approved(log, n, id, token)
  {
    if Approved(log, n, id, token) {
      var d :| 0 <= d < n && Approves(log[d], id, token);
      assert DecidesFor(log[d], id);
      StartingSavesTransition(log[d]);
    }
  }

  /** So nothing but transition codes is ever written for the notification. */
  lemma NothingForgets(s: System, id: string, m: nat)
    requires Evidence(s) && Traced(s) && AlwaysStarting(s.log, id) && m < |s.log|
    ensures !ForgetsTransition(s.log[m], id)
  {
    var log, e := s.log, s.log[m];
    if Codes(e, id) {
      assert EventTraced(log, m);
      if e.WasFenced? {
        var b :| 0 <= b < m && Begins(log[b], id);
        assert EventTraced(log, b);
        NeverApproved(log, b, id, log[b].token);
      } else if AnsweredAs(log, m, id, e.token, e.save) {
        var c :| 0 <= c < m && AnswerOf(log[c], id, e.token, e.save);
        assert CallApproved(log, c);
        NeverApproved(log, c, id, e.token);
      } else {
        var d :| 0 <= d < m && Finishes(log[d], id, e.token, e.save);
        assert DecidesFor(log[d], id);
        StartingSavesTransition(log[d]);
      }
    }
  }

  /** The last claim before a place of the log is a claim with that token, and nothing claims after it. */
  lemma {:induction false} LastTokenAt(log: seq<Event>, n: nat, id: string) returns (p: nat)
    requires n <= |log| && LastToken(log[..n], id).Some?
    ensures p < n && Claims(log[p], id) && LastToken(log[..n], id) == Some(log[p].token)
    ensures forall q | p < q < n :: !Claims(log[q], id)
    decreases n
  {
    var before := log[..n];
    assert before[..n - 1] == log[..n - 1];
    if Claims(before[n - 1], id) {
      p := n - 1;
    } else {
      p := LastTokenAt(log, n - 1, id);
    }
  }

  lemma ClaimsDiffer(s: System, p: nat, q: nat)
    requires Traced(s) && p < |s.log| && q < |s.log| && p != q && s.log[p].WasClaimed? && s.log[q].WasClaimed?
    ensures s.log[p].token != s.log[q].token
  {
    assert !Twins(s.log, if p < q then p else q, if p < q then q else p);
  }

  /** A claim that saved was the last one when it did. */
  lemma SavedWasLast(s: System, id: string, c: nat, k: nat, q: nat)
    requires Traced(s) && c < k < |s.log| && q < |s.log|
    requires Claims(s.log[c], id) && s.log[k].WasSaved? && s.log[k].id == id && s.log[k].token == s.log[c].token
    requires Claims(s.log[q], id) && c < q
    ensures k < q
  {
    assert EventTraced(s.log, k);
    var p := LastTokenAt(s.log, k, id);
    if p != c {
      ClaimsDiffer(s, p, c);
    }
  }

  /** Of two decided claims of a notification that both save, the one that decides first has saved before the other is taken. */
  lemma SavedBeforeNext(s: System, id: string, i: nat, ci: nat, ki: nat, j: nat, cj: nat, kj: nat)
    requires Traced(s) && i < j < |s.log| && ci < i < ki < |s.log| && cj < j < kj < |s.log|
    requires DecidesFor(s.log[i], id) && DecidesFor(s.log[j], id)
    requires Claims(s.log[ci], id) && s.log[ci].token == s.log[i].token
    requires Claims(s.log[cj], id) && s.log[cj].token == s.log[j].token
    requires s.log[ki].WasSaved? && s.log[ki].id == id && s.log[ki].token == s.log[i].token
    requires s.log[kj].WasSaved? && s.log[kj].id == id && s.log[kj].token == s.log[j].token
    ensures ki < cj
  {
    assert !Twins(s.log, i, j);
    if cj < ci {
      SavedWasLast(s, id, cj, kj, ci);
    } else {
      SavedWasLast(s, id, ci, ki, cj);
    }
  }

  lemma SaveIsTransition(s: System, id: string, i: nat, k: nat)
    requires Evidence(s) && Traced(s) && AlwaysStarting(s.log, id) && i < k < |s.log|
    requires DecidesFor(s.log[i], id)
    requires s.log[k].WasSaved? && s.log[k].id == id && s.log[k].token == s.log[i].token
    ensures SavesTransition(s.log[k], id, s.log[i].token)
  {
    NothingForgets(s, id, k);
  }

  /** If two claims both ask and both save, the first a transition code, another code is written in between. */
  lemma SecondAskFollowsOtherCode(states: seq<System>, actions: seq<Action>, n: nat, id: string, i: nat, ki: nat, j: nat) returns (m: nat)
    requires IsRun(states, actions) && n < |states| && i < j < |states[n].log| && i < ki < |states[n].log|
    requires var log := states[n].log;
             && DecidesFor(log[i], id) && DecidesFor(log[j], id)
             && Requests(log[i].n, log[i].o) && Requests(log[j].n, log[j].o)
             && SavesTransition(log[ki], id, log[i].token) && SavedAfter(log, j)
    ensures ki < m < j && ForgetsTransition(states[n].log[m], id)
  {
    var s := states[n];
    TracedInRun(states, actions, n);
    var ci := TransitionAskedExactlyWhen(states, actions, n, i);
    var cj := AskedAgainOnlyAfterOtherCode(states, actions, n, i, j);
    var kj :| j < kj < |s.log| && s.log[kj].WasSaved? && s.log[kj].id == id && s.log[kj].token == s.log[j].token;
    SavedBeforeNext(s, id, i, ci, ki, j, cj, kj);
    assert ForgottenBetween(s.log, ki, cj, id);
    m :| ki < m < cj && ForgetsTransition(s.log[m], id);
  }

  /** With both saved and the broadcast always starting, the later of two claims did not ask. */
  lemma LaterDoesNotAsk(states: seq<System>, actions: seq<Action>, n: nat, id: string, i: nat, j: nat)
    requires IsRun(states, actions) && n < |states| && i < j < |states[n].log|
    requires AlwaysStarting(states[n].log, id) && AlwaysSaved(states[n].log, id)
    requires var log := states[n].log;
             DecidesFor(log[i], id) && DecidesFor(log[j], id) && Requests(log[i].n, log[i].o)
    ensures !Requests(states[n].log[j].n, states[n].log[j].o)
  {
    var s := states[n];
    EvidenceInRun(states, actions, n);
    TracedInRun(states, actions, n);
    assert SavedAfter(s.log, i) && SavedAfter(s.log, j);
    var ki :| i < ki < |s.log| && s.log[ki].WasSaved? && s.log[ki].id == id && s.log[ki].token == s.log[i].token;
    SaveIsTransition(s, id, i, ki);
    if Requests(s.log[j].n, s.log[j].o) {
      var m := SecondAskFollowsOtherCode(states, actions, n, id, i, ki, j);
      NothingForgets(s, id, m);
    }
  }

  /**
   In every run in which all claims of a notification find its broadcast starting
   and save their retry, the live transition is asked for at most once.
   */
  lemma TransitionAskedAtMostOnce(states: seq<System>, actions: seq<Action>, n: nat, id: string, i: nat, j: nat)
    requires IsRun(states, actions) && n < |states| && i < |states[n].log| && j < |states[n].log|
    requires AlwaysStarting(states[n].log, id) && AlwaysSaved(states[n].log, id)
    requires var log := states[n].log;
             && DecidesFor(log[i], id) && DecidesFor(log[j], id)
             && Requests(log[i].n, log[i].o) && Requests(log[j].n, log[j].o)
    ensures i == j
  {
    if i < j {
      LaterDoesNotAsk(states, actions, n, id, i, j);
    } else if j < i {
      LaterDoesNotAsk(states, actions, n, id, j, i);
    }
  }

  // ------------------------------------------------------- answers and what is saved

  /** In every run, what a claim saves after its Bot call is what the dispatcher makes of that call's answer. */
  lemma SavedAnswerFitsCall(states: seq<System>, actions: seq<Action>, n: nat, c: nat, k: nat)
    requires IsRun(states, actions) && n < |states| && c < k < |states[n].log|
    requires var log := states[n].log;
             log[c].WasCalled? && log[k].WasSaved? && log[k].id == log[c].id && log[k].token == log[c].token
    ensures Fits(states[n].log[k].save, states[n].log[c].result)
  {
    EvidenceInRun(states, actions, n);
    TracedInRun(states, actions, n);
    var s := states[n];
    assert EventTraced(s.log, k) && CallApproved(s.log, c);
    ApprovedDoesNotFinish(s, c, k);
    AnswerIsOfCall(s, c, k);
  }

  lemma AnswerIsOfCall(s: System, c: nat, k: nat)
    requires Traced(s) && c < k < |s.log| && s.log[c].WasCalled? && s.log[k].WasSaved?
    requires s.log[k].token == s.log[c].token && AnsweredAs(s.log, k, s.log[k].id, s.log[k].token, s.log[k].save)
    ensures Fits(s.log[k].save, s.log[c].result)
  {
    var e := s.log[k];
    var b :| 0 <= b < k && AnswerOf(s.log[b], e.id, e.token, e.save);
    if b != c {
      CallsDiffer(s, b, c);
    }
  }

  lemma CallsDiffer(s: System, p: nat, q: nat)
    requires Traced(s) && p < |s.log| && q < |s.log| && p != q && s.log[p].WasCalled? && s.log[q].WasCalled?
    ensures s.log[p].token != s.log[q].token
  {
    assert !Twins(s.log, if p < q then p else q, if p < q then q else p);
  }

  /** A claim that called the Bot was not to be ended by its decision. */
  lemma ApprovedDoesNotFinish(s: System, c: nat, k: nat)
    requires Traced(s) && c < k < |s.log| && s.log[c].WasCalled? && s.log[k].WasSaved?
    requires s.log[k].id == s.log[c].id && s.log[k].token == s.log[c].token && Approved(s.log, c, s.log[c].id, s.log[c].token)
    ensures !FinishedAs(s.log, k, s.log[k].id, s.log[k].token, s.log[k].save)
  {
    var e := s.log[k];
    if FinishedAs(s.log, k, e.id, e.token, e.save) {
      var d :| 0 <= d < k && Finishes(s.log[d], e.id, e.token, e.save);
      var a :| 0 <= a < c && Approves(s.log[a], e.id, e.token);
      if a != d {
        DecisionsDiffer(s, a, d);
      }
    }
  }

  lemma DecisionsDiffer(s: System, p: nat, q: nat)
    requires Traced(s) && p < |s.log| && q < |s.log| && p != q && s.log[p].WasDecided? && s.log[q].WasDecided?
    ensures s.log[p].token != s.log[q].token
  {
    assert !Twins(s.log, if p < q then p else q, if p < q then q else p);
  }

  /** In every run, an unclear answer that is saved at all is saved as unknown, and a refusal as suppressed. */
  lemma FinalAnswerIsSavedAs(states: seq<System>, actions: seq<Action>, n: nat, c: nat, k: nat)
    requires IsRun(states, actions) && n < |states| && c < k < |states[n].log|
    requires var log := states[n].log;
             log[c].WasCalled? && log[k].WasSaved? && log[k].id == log[c].id && log[k].token == log[c].token
             && Final(log[c].result) && !log[c].result.success
    ensures var log := states[n].log;
            if Unclear(log[c].result) then log[k].save.MarkUnknown? else log[k].save.MarkSuppressed?
  {
    SavedAnswerFitsCall(states, actions, n, c, k);
    var log := states[n].log;
    var row, lifecycle, now :| log[k].save == AfterBot(row, log[c].result, lifecycle, now);
    FinalFailureSpeaks(row, log[c].result, lifecycle, now);
  }

  /**
   In every run, with any number of workers, crashes and failed saves: after a call
   that was answered with a success or with no receipt that nothing was sent, told
   by status, phase and code alone, no call is made for its event id again.
   */
  lemma FinalCallIsLast(states: seq<System>, actions: seq<Action>, n: nat, i: nat, j: nat)
    requires IsRun(states, actions) && n < |states| && i < |states[n].log| && j < |states[n].log|
    requires var log := states[n].log;
             log[i].WasCalled? && log[j].WasCalled? && log[i].eventID == log[j].eventID && Final(log[i].result)
    ensures j <= i
  {
    if i < j {
      NoSecondPost(states, actions, n, i, j);
      FinalIsNotRetried(states[n].log[i].result);
    }
  }
}
