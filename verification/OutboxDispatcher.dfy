/**
 The dispatcher's own code over the store, tied to the protocol: one scan is a
 sequence of protocol steps from the state it found, so it extends any run, and
 what is proved about runs holds of it.
 */
module OutboxDispatcher {
  import opened Text
  import opened OutboxStore
  import opened OutboxDispatch
  import opened OutboxProtocol

  /** What the dispatcher reports for a claim; Lost is the empty text: nothing was recorded. */
  datatype Outcome = WasDelivered | RetryScheduled | UnknownDelivery | WasSuppressed | Lost

  function OutcomeOf(save: Save): Outcome {
    match save
    case Retry(_, _, _, _) => RetryScheduled
    case MarkDelivered(_, _) => WasDelivered
    case MarkUnknown(_, _) => UnknownDelivery
    case MarkSuppressed(_, _) => WasSuppressed
  }

  // ------------------------------------------------------------ steps in a row

  /** The actions lead from one system to another. */
  ghost predicate Leads(s: System, actions: seq<Action>, t: System)
    decreases |actions|
  {
    if actions == [] then s == t
    else Enabled(s, actions[0]) && Leads(Step(s, actions[0]), actions[1..], t)
  }

  lemma LeadsOne(s: System, a: Action)
    requires Enabled(s, a)
    ensures Leads(s, [a], Step(s, a))
  {
    assert [a][1..] == [];
  }

  lemma {:induction false} LeadsTwice(s: System, first: seq<Action>, t: System, then_: seq<Action>, u: System)
    requires Leads(s, first, t) && Leads(t, then_, u)
    ensures Leads(s, first + then_, u)
    decreases |first|
  {
    if first == [] {
      assert first + then_ == then_;
    } else {
      assert (first + then_)[1..] == first[1..] + then_;
      LeadsTwice(Step(s, first[0]), first[1..], t, then_, u);
    }
  }

  /** What starts from the end of a run extends it to a run. */
  lemma {:induction false} LeadsExtendsRun(states: seq<System>, actions: seq<Action>, more: seq<Action>, t: System)
    returns (all: seq<System>)
    requires IsRun(states, actions) && Leads(states[|actions|], more, t)
    ensures IsRun(all, actions + more) && all[|actions| + |more|] == t
    ensures |all| > |actions| && all[..|actions| + 1] == states
    decreases |more|
  {
    if more == [] {
      all := states;
      assert actions + more == actions;
    } else {
      var next := Step(states[|actions|], more[0]);
      var longer, done := states + [next], actions + [more[0]];
      RunOn(states, actions, more[0]);
      all := LeadsExtendsRun(longer, done, more[1..], t);
      assert done + more[1..] == actions + more;
      assert all[..|actions| + 1] == all[..|done| + 1][..|actions| + 1];
    }
  }

  // ------------------------------------------------------------- working off a claim

  /** The clock at each of the four steps of a claim. */
  datatype Clock = Clock(decide: int, begin: int, answer: int, save: int)

  /** The last step: the save if the store takes it, else the claim is given up. */
  ghost function LastStep(s: System, w: nat, clock: Clock): Action {
    if Enabled(s, SaveClaim(w, clock.save)) then SaveClaim(w, clock.save) else Crash(w)
  }

  /**
   The one course a claim can take: decide on what was observed; then save, or
   fence if the store lets it, call the Bot with this answer, and save.
   */
  ghost function Course(s: System, w: nat, o: Observation, answer: DispatchResult, clock: Clock): seq<Action>
    requires w in s.workers && s.workers[w].Deciding?
  {
    var decide, begin, call := DecideClaim(w, o, clock.decide), BeginDispatch(w, clock.begin, true), CallBot(w, answer, clock.answer);
    var s1 := Step(s, decide);
    if s1.workers[w].Saving? then [decide, LastStep(s1, w, clock)]
    else if !Enabled(s1, begin) then [decide, Crash(w)]
    else [decide, begin, call, LastStep(Step(Step(s1, begin), call), w, clock)]
  }

  /** What is reported is what the last of the steps recorded. */
  ghost predicate Reports(t: System, last: Action, outcome: Outcome) {
    if last.SaveClaim? then
      |t.log| > 0 && t.log[|t.log| - 1].WasSaved? && outcome == OutcomeOf(t.log[|t.log| - 1].save)
    else outcome == Lost
  }

  lemma SaveIsLast(s: System, w: nat, clock: Clock)
    requires w in s.workers && s.workers[w].Saving? && Enabled(s, SaveClaim(w, clock.save))
    ensures var last, k := LastStep(s, w, clock), s.workers[w];
            && Enabled(s, last)
            && Step(s, last).rows == s.rows[k.n.id := Apply(s.rows[k.n.id], k.save, clock.save)]
            && Reports(Step(s, last), last, OutcomeOf(k.save))
  {
  }

  lemma LostIsLast(s: System, w: nat, clock: Clock)
    requires w in s.workers && !Enabled(s, SaveClaim(w, clock.save))
    ensures var last := LastStep(s, w, clock);
            Enabled(s, last) && Step(s, last).rows == s.rows && Reports(Step(s, last), last, Lost)
  {
  }

  /** Saves what the claim came to, through the store's conditional update. */
  method SaveOutcome(outbox: Outbox, w: nat, k: Worker, clock: Clock, ghost s: System) returns (outcome: Outcome)
    requires k.Saving? && s.rows == outbox.rows && w in s.workers && s.workers[w] == k
    modifies outbox
    ensures var last := LastStep(s, w, clock);
            Enabled(s, last) && Step(s, last).rows == outbox.rows && Reports(Step(s, last), last, outcome)
  {
    var error := outbox.UpdateClaimed(k.n.id, k.token, k.save, clock.save);
    if error.None? {
      SaveIsLast(s, w, clock);
      return OutcomeOf(k.save);
    }
    LostIsLast(s, w, clock);
    return Lost;
  }

  /** The fence, the Bot call behind it, and the save of its answer. */
  method FenceAndCall(outbox: Outbox, w: nat, k: Worker, answer: DispatchResult, clock: Clock, ghost s: System)
    returns (outcome: Outcome, ghost t: System)
    requires k.Beginning? && s.rows == outbox.rows && w in s.workers && s.workers[w] == k
    modifies outbox
    ensures t.rows == outbox.rows
    ensures var begin, call := BeginDispatch(w, clock.begin, true), CallBot(w, answer, clock.answer);
            if Enabled(s, begin) then
              var s3 := Step(Step(s, begin), call);
              var last := LastStep(s3, w, clock);
              Enabled(s3, last) && t == Step(s3, last) && Reports(t, last, outcome)
            else t == Step(s, Crash(w)) && outcome == Lost
  {
    var begun := outbox.BeginBotDispatch(k.n.id, k.token, clock.begin);
    if begun.Err? {
      return Lost, Step(s, Crash(w));
    }
    ghost var s3 := Step(Step(s, BeginDispatch(w, clock.begin, true)), CallBot(w, answer, clock.answer));
    var save := AfterBot(begun.value, answer, k.lifecycle, clock.answer);
    outcome := SaveOutcome(outbox, w, Saving(begun.value, k.token, save, Some(answer)), clock, s3);
    t := Step(s3, LastStep(s3, w, clock));
  }

  lemma CourseLeadsShort(s: System, a: Action, b: Action)
    requires Enabled(s, a) && Enabled(Step(s, a), b)
    ensures Leads(s, [a, b], Step(Step(s, a), b))
  {
    LeadsOne(s, a);
    LeadsOne(Step(s, a), b);
    LeadsTwice(s, [a], Step(s, a), [b], Step(Step(s, a), b));
    assert [a] + [b] == [a, b];
  }

  lemma CourseLeadsLong(s: System, a: Action, b: Action, c: Action, d: Action)
    requires Enabled(s, a) && Enabled(Step(s, a), b)
    requires var s2 := Step(Step(s, a), b); Enabled(s2, c) && Enabled(Step(s2, c), d)
    ensures Leads(s, [a, b, c, d], Step(Step(Step(Step(s, a), b), c), d))
  {
    var s2 := Step(Step(s, a), b);
    CourseLeadsShort(s, a, b);
    CourseLeadsShort(s2, c, d);
    LeadsTwice(s, [a, b], s2, [c, d], Step(Step(s2, c), d));
    assert [a, b] + [c, d] == [a, b, c, d];
  }

  /** Working off a claim: decide, fence, call the Bot, save. */
  method DispatchClaimed(outbox: Outbox, w: nat, claim: Claimed, o: Observation, answer: DispatchResult, clock: Clock, ghost s: System)
    returns (outcome: Outcome, ghost t: System)
    requires s.rows == outbox.rows && w in s.workers && s.workers[w] == Deciding(claim.row, claim.token)
    modifies outbox
    ensures t.rows == outbox.rows
    ensures var course := Course(s, w, o, answer, clock);
            Leads(s, course, t) && Reports(t, course[|course| - 1], outcome)
  {
    ghost var a := DecideClaim(w, o, clock.decide);
    ghost var s1 := Step(s, a);
    var plan := Decide(claim.row, o, clock.decide);
    match plan {
      case Finish(save) =>
        outcome := SaveOutcome(outbox, w, Saving(claim.row, claim.token, save, None), clock, s1);
        t := Step(s1, LastStep(s1, w, clock));
        CourseLeadsShort(s, a, LastStep(s1, w, clock));
      case Proceed(lifecycle) =>
        outcome, t := FenceAndCall(outbox, w, Beginning(claim.row, claim.token, lifecycle), answer, clock, s1);
        ghost var begin, call := BeginDispatch(w, clock.begin, true), CallBot(w, answer, clock.answer);
        if Enabled(s1, begin) {
          CourseLeadsLong(s, a, begin, call, LastStep(Step(Step(s1, begin), call), w, clock));
        } else {
          CourseLeadsShort(s, a, Crash(w));
        }
    }
  }

  // ----------------------------------------------------------------------- one scan

  /** The counters of one scan. */
  datatype Counts = Counts(claimed: nat, delivered: nat, retryScheduled: nat, deliveryUnknown: nat, suppressed: nat)

  function Count(c: Counts, outcome: Outcome): Counts {
    match outcome
    case WasDelivered => c.(delivered := c.delivered + 1)
    case RetryScheduled => c.(retryScheduled := c.retryScheduled + 1)
    case UnknownDelivery => c.(deliveryUnknown := c.deliveryUnknown + 1)
    case WasSuppressed => c.(suppressed := c.suppressed + 1)
    case Lost => c
  }

  function Total(c: Counts): nat {
    c.delivered + c.retryScheduled + c.deliveryUnknown + c.suppressed
  }

  /** Every outcome but a lost one is counted once, and different outcomes in different counters. */
  lemma CountedOnce(c: Counts, a: Outcome, b: Outcome)
    ensures Total(Count(c, a)) == Total(c) + (if a.Lost? then 0 else 1) && Count(c, a).claimed == c.claimed
    ensures Count(c, a) == Count(c, b) <==> a == b
  {
  }

  const CLAIM_TTL := 120

  ghost function Fences(ids: seq<string>, now: int): (r: seq<Action>)
    ensures |r| == |ids| && forall i | 0 <= i < |ids| :: r[i] == FenceExpired(ids[i], now)
  {
    seq(|ids|, i requires 0 <= i < |ids| => FenceExpired(ids[i], now))
  }

  lemma FenceStep(s: System, id: string, now: int)
    requires id in s.rows && FenceDue(s.rows[id], now)
    ensures var t := Step(s, FenceExpired(id, now));
            && t.rows == s.rows[id := Fence(s.rows[id])]
            && t.workers == s.workers && t.tokens == s.tokens && t.eventOf == s.eventOf
  {
  }

  lemma AllFencedNext(rows: map<string, Row>, ids: seq<string>)
    requires ids != [] && ids[0] !in ids[1..] && forall i | 0 <= i < |ids| :: ids[i] in rows
    ensures (forall i | 0 <= i < |ids[1..]| :: ids[1..][i] in rows[ids[0] := Fence(rows[ids[0]])])
         && AllFenced(rows[ids[0] := Fence(rows[ids[0]])], ids[1..]) == AllFenced(rows, ids)
  {
    assert ids == [ids[0]] + ids[1..];
  }

  ghost predicate AllDue(rows: map<string, Row>, ids: seq<string>, now: int) {
    && (forall i, j | 0 <= i < j < |ids| :: ids[i] != ids[j])
    && (forall i | 0 <= i < |ids| :: ids[i] in rows && FenceDue(rows[ids[i]], now))
  }

  lemma DueAfterFence(rows: map<string, Row>, ids: seq<string>, now: int)
    requires ids != [] && AllDue(rows, ids, now)
    ensures ids[0] !in ids[1..] && AllDue(rows[ids[0] := Fence(rows[ids[0]])], ids[1..], now)
  {
    assert forall i | 0 <= i < |ids[1..]| :: ids[1..][i] == ids[i + 1];
  }

  lemma FirstFence(s: System, ids: seq<string>, now: int) returns (next: System)
    requires ids != [] && AllDue(s.rows, ids, now)
    ensures Leads(s, [FenceExpired(ids[0], now)], next) && AllDue(next.rows, ids[1..], now)
    ensures AllFenced(next.rows, ids[1..]) == AllFenced(s.rows, ids)
    ensures next.workers == s.workers && next.tokens == s.tokens && next.eventOf == s.eventOf
  {
    next := Step(s, FenceExpired(ids[0], now));
    LeadsOne(s, FenceExpired(ids[0], now));
    FenceStep(s, ids[0], now);
    DueAfterFence(s.rows, ids, now);
    AllFencedNext(s.rows, ids);
  }

  /** Fencing a list of expired rows is as many steps of the protocol. */
  lemma {:induction false} FencesLead(s: System, ids: seq<string>, now: int) returns (t: System)
    requires AllDue(s.rows, ids, now)
    ensures Leads(s, Fences(ids, now), t)
    ensures t.rows == AllFenced(s.rows, ids)
    ensures t.workers == s.workers && t.tokens == s.tokens && t.eventOf == s.eventOf
    decreases |ids|
  {
    if ids == [] {
      t := s;
      assert AllFenced(s.rows, ids) == s.rows;
    } else {
      var next := FirstFence(s, ids, now);
      t := FencesLead(next, ids[1..], now);
      LeadsTwice(s, [FenceExpired(ids[0], now)], next, Fences(ids[1..], now), t);
      assert [FenceExpired(ids[0], now)] + Fences(ids[1..], now) == Fences(ids, now);
    }
  }

  /** The claim of a scan, if a row is due, and its course. */
  ghost predicate ClaimLeads(
    s: System, w: nat, now: int, token: string, o: Observation, answer: DispatchResult, clock: Clock,
    claimed: Option<string>, outcome: Outcome, t: System)
  {
    match claimed
    case None => t == s && forall id | id in s.rows :: !Due(s.rows[id], now)
    case Some(id) =>
      var take := TakeClaim(w, id, token, now, now + CLAIM_TTL);
      && IsFirst(s.rows, (r: Row) => Due(r, now), DuePlace, id)
      && Enabled(s, take)
      && var s' := Step(s, take);
         var course := Course(s', w, o, answer, clock);
         Leads(s', course, t) && Reports(t, course[|course| - 1], outcome)
  }

  /** The first due row is claimed and worked off. */
  method ClaimAndDispatch(
    outbox: Outbox, w: nat, now: int, token: string, o: Observation, answer: DispatchResult, clock: Clock, ghost s: System)
    returns (claimed: Option<string>, outcome: Outcome, ghost t: System)
    requires s.rows == outbox.rows && w !in s.workers && token !in s.tokens
    requires forall id | id in outbox.rows :: outbox.rows[id].id == id
    modifies outbox
    ensures t.rows == outbox.rows && ClaimLeads(s, w, now, token, o, answer, clock, claimed, outcome, t)
  {
    var claim := outbox.ClaimDue(now, CLAIM_TTL, token);
    if claim.None? {
      return None, Lost, s;
    }
    ghost var take := TakeClaim(w, claim.value.row.id, token, now, now + CLAIM_TTL);
    ClaimIsStep(s, w, claim.value.row.id, token, now);
    outcome, t := DispatchClaimed(outbox, w, claim.value, o, answer, clock, Step(s, take));
    claimed := Some(claim.value.row.id);
  }

  lemma ClaimIsStep(s: System, w: nat, id: string, token: string, now: int)
    requires w !in s.workers && token !in s.tokens && id in s.rows && Due(s.rows[id], now)
    ensures var take := TakeClaim(w, id, token, now, now + CLAIM_TTL);
            && Enabled(s, take)
            && var row, t := Claim(s.rows[id], token, now + CLAIM_TTL), Step(s, take);
               t.rows == s.rows[id := row] && w in t.workers && t.workers[w] == Deciding(row, token)
  {
  }

  /** The steps of a whole scan: the fences, then the claim and its course. */
  ghost predicate ScanLeads(
    s: System, w: nat, now: int, token: string, o: Observation, answer: DispatchResult, clock: Clock,
    fenced: seq<string>, claimed: Option<string>, outcome: Outcome, t: System)
  {
    exists s1: System ::
      && Leads(s, Fences(fenced, now), s1)
      && (forall i | 0 <= i < |fenced| :: fenced[i] in s.rows) && s1.rows == AllFenced(s.rows, fenced)
      && ClaimLeads(s1, w, now, token, o, answer, clock, claimed, outcome, t)
  }

  function Tally(fenced: nat, claimed: Option<string>, outcome: Outcome): Counts {
    if claimed.None? then Counts(0, 0, 0, fenced, 0) else Count(Counts(1, 0, 0, fenced, 0), outcome)
  }

  /** A store call works, fails without effect, or takes effect and its answer is lost. */
  datatype Fault = NoFault | FailsBefore | FailsAfter

  /** The steps of a scan that a failing call ends: the fences that took effect, and perhaps a claim that nobody holds. */
  ghost predicate BrokenScanLeads(
    s: System, w: nat, now: int, token: string, fenced: seq<string>, claimed: Option<string>, t: System)
  {
    exists s1: System :: Leads(s, Fences(fenced, now), s1) && LostClaim(s1, w, now, token, claimed, t)
  }

  /** A row may have been claimed, but no worker has heard of it. */
  ghost predicate LostClaim(s: System, w: nat, now: int, token: string, claimed: Option<string>, t: System) {
    match claimed
    case None => t == s
    case Some(id) =>
      var take := TakeClaim(w, id, token, now, now + CLAIM_TTL);
      Enabled(s, take) && Enabled(Step(s, take), Crash(w)) && t == Step(Step(s, take), Crash(w))
  }

  /** A claim whose answer is lost: the row is under a lease that no worker knows. */
  method ClaimAndLose(outbox: Outbox, w: nat, now: int, token: string, ghost s: System)
    returns (ghost claimed: Option<string>, ghost t: System)
    requires s.rows == outbox.rows && w !in s.workers && token !in s.tokens
    requires forall id | id in outbox.rows :: outbox.rows[id].id == id
    modifies outbox
    ensures t.rows == outbox.rows && LostClaim(s, w, now, token, claimed, t)
  {
    var claim := outbox.ClaimDue(now, CLAIM_TTL, token);
    claimed, t := None, s;
    if claim.Some? {
      ClaimIsStep(s, w, claim.value.row.id, token, now);
      claimed := Some(claim.value.row.id);
      t := Step(Step(s, TakeClaim(w, claim.value.row.id, token, now, now + CLAIM_TTL)), Crash(w));
    }
  }

  /** The fencing part: what took effect, and whether the scan heard of it. */
  method FencePart(outbox: Outbox, now: int, limit: int, fault: Fault, ghost s: System)
    returns (fenced: seq<string>, ghost t: System)
    requires s.rows == outbox.rows && forall id | id in outbox.rows :: outbox.rows[id].id == id
    modifies outbox
    ensures FencedInOrder(s.rows, fenced, now) && |fenced| <= NormalLimit(limit)
    ensures fault.FailsBefore? ==> fenced == []
    ensures !fault.FailsBefore? && |fenced| < NormalLimit(limit) ==>
              forall id | id in s.rows && FenceDue(s.rows[id], now) :: id in fenced
    ensures Leads(s, Fences(fenced, now), t) && t.rows == outbox.rows
    ensures (forall i | 0 <= i < |fenced| :: fenced[i] in s.rows) && t.rows == AllFenced(s.rows, fenced)
    ensures t.workers == s.workers && t.tokens == s.tokens
    ensures forall id | id in outbox.rows :: outbox.rows[id].id == id
  {
    fenced := [];
    if !fault.FailsBefore? {
      fenced := outbox.FenceExpired(now, limit);
    }
    FencedAreDue(s.rows, fenced, now);
    t := FencesLead(s, fenced, now);
    assert fenced == [] ==> AllFenced(s.rows, fenced) == s.rows;
  }

  /**
   One scan by a free worker with a fresh token, from any state of the protocol
   with these rows: it fences what expired, in order and up to the limit, claims
   the first due row and takes that claim's one course. The counters say just that;
   without them the scan ended at a failing call, after steps of the protocol too.
   */
  method DispatchDue(
    outbox: Outbox, w: nat, now: int, limit: int, token: string, o: Observation, answer: DispatchResult, clock: Clock,
    fencing: Fault, claiming: Fault, ghost s: System)
    returns (counts: Option<Counts>, ghost fenced: seq<string>, ghost claimed: Option<string>, ghost outcome: Outcome, ghost t: System)
    requires s.rows == outbox.rows && w !in s.workers && token !in s.tokens
    requires forall id | id in outbox.rows :: outbox.rows[id].id == id
    modifies outbox
    ensures t.rows == outbox.rows
    ensures FencedInOrder(s.rows, fenced, now) && |fenced| <= NormalLimit(limit)
    ensures counts.Some? <==> fencing.NoFault? && claiming.NoFault?
    ensures counts.Some? ==>
              && ScanLeads(s, w, now, token, o, answer, clock, fenced, claimed, outcome, t)
              && counts.value == Tally(|fenced|, claimed, outcome)
              && (|fenced| < NormalLimit(limit) ==> forall id | id in s.rows && FenceDue(s.rows[id], now) :: id in fenced)
    ensures counts.None? ==> BrokenScanLeads(s, w, now, token, fenced, claimed, t)
    ensures fencing.FailsBefore? ==> fenced == []
    ensures !fencing.NoFault? || claiming.FailsBefore? ==> claimed.None?
  {
    outcome, claimed := Lost, None;
    var unknown;
    unknown, t := FencePart(outbox, now, limit, fencing, s);
    fenced := unknown;
    if !fencing.NoFault? || claiming.FailsBefore? {
      return None, fenced, claimed, outcome, t;
    }
    ghost var s1 := t;
    if claiming.FailsAfter? {
      claimed, t := ClaimAndLose(outbox, w, now, token, s1);
      return None, fenced, claimed, outcome, t;
    }
    var id, result;
    id, result, t := ClaimAndDispatch(outbox, w, now, token, o, answer, clock, s1);
    claimed, outcome := id, result;
    var tally := Counts(0, 0, 0, |unknown|, 0);
    if id.Some? {
      tally := Count(tally.(claimed := 1), result);
    }
    counts := Some(tally);
  }

  lemma FencedAreDue(rows: map<string, Row>, ids: seq<string>, now: int)
    requires FencedInOrder(rows, ids, now)
    ensures AllDue(rows, ids, now)
  {
    forall i | 0 <= i < |ids|
      ensures ids[i] in rows && FenceDue(rows[ids[i]], now)
    {
      assert FencedAt(rows, ids, now, i);
    }
  }

  /** A scan from the last state of a run extends that run. */
  lemma ScanExtendsRun(
    states: seq<System>, actions: seq<Action>, w: nat, now: int, token: string, o: Observation, answer: DispatchResult,
    clock: Clock, fenced: seq<string>, claimed: Option<string>, outcome: Outcome, t: System)
    returns (all: seq<System>, more: seq<Action>)
    requires IsRun(states, actions)
    requires ScanLeads(states[|actions|], w, now, token, o, answer, clock, fenced, claimed, outcome, t)
    ensures IsRun(all, actions + more) && all[|actions| + |more|] == t
  {
    var s := states[|actions|];
    var s1 :| Leads(s, Fences(fenced, now), s1) && ClaimLeads(s1, w, now, token, o, answer, clock, claimed, outcome, t);
    var claim := ClaimIsLead(s1, w, now, token, o, answer, clock, claimed, outcome, t);
    LeadsTwice(s, Fences(fenced, now), s1, claim, t);
    more := Fences(fenced, now) + claim;
    all := LeadsExtendsRun(states, actions, more, t);
  }

  lemma ClaimIsLead(
    s: System, w: nat, now: int, token: string, o: Observation, answer: DispatchResult, clock: Clock,
    claimed: Option<string>, outcome: Outcome, t: System)
    returns (actions: seq<Action>)
    requires ClaimLeads(s, w, now, token, o, answer, clock, claimed, outcome, t)
    ensures Leads(s, actions, t)
  {
    actions := [];
    if claimed.Some? {
      var take := TakeClaim(w, claimed.value, token, now, now + CLAIM_TTL);
      var course := Course(Step(s, take), w, o, answer, clock);
      LeadsOne(s, take);
      LeadsTwice(s, [take], Step(s, take), course, t);
      actions := [take] + course;
    }
  }

  /** So does a scan that a failing call ends. */
  lemma BrokenScanExtendsRun(
    states: seq<System>, actions: seq<Action>, w: nat, now: int, token: string, fenced: seq<string>, claimed: Option<string>, t: System)
    returns (all: seq<System>, more: seq<Action>)
    requires IsRun(states, actions)
    requires BrokenScanLeads(states[|actions|], w, now, token, fenced, claimed, t)
    ensures IsRun(all, actions + more) && all[|actions| + |more|] == t
  {
    var s := states[|actions|];
    var s1 :| Leads(s, Fences(fenced, now), s1) && LostClaim(s1, w, now, token, claimed, t);
    var claim := LostClaimIsLead(s1, w, now, token, claimed, t);
    LeadsTwice(s, Fences(fenced, now), s1, claim, t);
    more := Fences(fenced, now) + claim;
    all := LeadsExtendsRun(states, actions, more, t);
  }

  lemma LostClaimIsLead(s: System, w: nat, now: int, token: string, claimed: Option<string>, t: System) returns (actions: seq<Action>)
    requires LostClaim(s, w, now, token, claimed, t)
    ensures Leads(s, actions, t)
  {
    actions := [];
    if claimed.Some? {
      var take := TakeClaim(w, claimed.value, token, now, now + CLAIM_TTL);
      CourseLeadsShort(s, take, Crash(w));
      actions := [take, Crash(w)];
    }
  }
}
