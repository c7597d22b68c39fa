/** One scan over the OAuth accounts: its calls are steps of the interleaved system, and its counters add up. */
module OAuthScan {
  import opened Text
  import opened OAuthRefresh

  datatype Listed = Listed(id: string, providerType: string, refreshTokenConfigured: bool)

  datatype Counters = Counters(attempted: nat, refreshed: nat, failed: nat, skipped: nat)

  /** What became of one account. A failure is about the account, the store, or was reported to the store. */
  datatype Outcome = DidRefresh | DidSkip | DidFail(why: Reason)
  datatype Reason = Unavailable | StoreBroke | Reported(failure: Failure)

  /** A store call fails before or after it took effect, or not at all. */
  datatype Fault = NoFault | FaultBefore | FaultAfter

  /** What the provider answers. */
  datatype Reply = Refused(code: string, relinkRequired: bool) | Token(access: string, refresh: string)

  datatype SaveResult = Stored | Conflict | Broken

  /** Everything around the scan, by the number of store calls so far: other handlers and workers, faults, the provider, the clock. */
  datatype World = World(
    others: nat -> seq<Action>,
    fault: nat -> Fault,
    providerReady: nat -> bool,
    reply: (nat, string) -> Reply,
    cancelled: nat -> bool,
    now: nat -> int)

  /** Something another handler or another worker does. */
  predicate Foreign(a: Action, worker: nat) {
    a.Other? || a.worker != worker
  }

  /** A worker's own reading is not touched by the others. */
  ghost predicate SameJob(s: System, t: System, worker: nat) {
    (worker in s.jobs <==> worker in t.jobs) && (worker in s.jobs ==> t.jobs[worker] == s.jobs[worker])
  }

  predicate Eligible(a: Listed) {
    EqualFold(Trim(a.providerType), "google") && a.refreshTokenConfigured
  }

  /** The accounts a scan attempts, in their order. */
  function Eligibles(accounts: seq<Listed>): seq<Listed> {
    if accounts == [] then []
    else
      var n := |accounts| - 1;
      Eligibles(accounts[..n]) + (if Eligible(accounts[n]) then [accounts[n]] else [])
  }

  /** The last action of a trace is this worker's save, and it took effect. */
  ghost predicate EndsWithSave(start: System, trace: seq<Action>, worker: nat, save: Save) {
    |trace| > 0 && trace[|trace| - 1] == Write(worker, save) && Matches(Play(start, trace[..|trace| - 1]), worker)
  }

  /** A refresh token is saved only when the provider sent a new one. */
  function Rotated(before: string, sent: string): string {
    if Trim(sent) != "" && sent != before then sent else ""
  }

  ghost predicate HasJob(s: System, worker: nat, id: string) {
    worker in s.jobs && s.jobs[worker].id == id
  }

  /** At this place of the trace the worker noted, with effect, that it attempts the account. */
  ghost predicate NotedAt(start: System, trace: seq<Action>, worker: nat, id: string, at: int, n: nat) {
    && n < |trace| && trace[n] == Write(worker, Attempted(at))
    && Matches(Play(start, trace[..n]), worker) && Play(start, trace[..n]).jobs[worker].id == id
  }

  ghost predicate Noted(start: System, trace: seq<Action>, worker: nat, id: string, at: int) {
    exists n: nat :: NotedAt(start, trace, worker, id, at, n)
  }

  lemma NotedStays(start: System, trace: seq<Action>, more: seq<Action>, worker: nat, id: string, at: int)
    requires Noted(start, trace, worker, id, at) && trace <= more
    ensures Noted(start, more, worker, id, at)
  {
    var n: nat :| NotedAt(start, trace, worker, id, at, n);
    assert trace[..n] == more[..n];
    assert NotedAt(start, more, worker, id, at, n);
  }

  lemma NotedLast(start: System, trace: seq<Action>, worker: nat, id: string, at: int)
    requires EndsWithSave(start, trace, worker, Attempted(at)) && HasJob(Play(start, trace), worker, id)
    ensures Noted(start, trace, worker, id, at)
  {
    assert NotedAt(start, trace, worker, id, at, |trace| - 1);
  }

  /** The provider's answer, at this call and to this token, is good: a refresh with what it sent is the result. */
  ghost predicate GoodAnswer(world: World, k: nat, token: string) {
    && world.providerReady(k)
    && world.reply(k, token).Token?
    && Trim(world.reply(k, token).access) != ""
  }

  /** The failure says what was wrong with the provider, or with its answer to this token. */
  ghost predicate BadAnswer(world: World, k: nat, token: string, code: string, relinkRequired: bool) {
    if !world.providerReady(k) then code == "provider_not_ready" && !relinkRequired
    else
      match world.reply(k, token)
      case Refused(c, relink) => code == c && relinkRequired == relink
      case Token(access, _) => Trim(access) == "" && code == "invalid_response" && !relinkRequired
  }

  /**
   An attempt that went through to its end: it read the account, noted the attempt,
   turned to the provider and saved the result, in three store calls. Every time it
   saved is the one at which it began.
   */
  ghost predicate WentThrough(world: World, calls: nat, start: System, trace: seq<Action>, worker: nat, job: Job, save: Save) {
    && calls >= 3
    && Noted(start, trace, worker, job.id, world.now(calls - 3))
    && EndsWithSave(start, trace, worker, save)
    && match save
       case Attempted(_) => false
       case Failed(f) => f.at == world.now(calls - 3) && BadAnswer(world, calls - 1, job.token, f.code, f.relinkRequired)
       case Refreshed(rotated, at) =>
         && at == world.now(calls - 3) && GoodAnswer(world, calls - 1, job.token)
         && rotated == Rotated(job.token, world.reply(calls - 1, job.token).refresh)
  }

  /** The account changed under the worker, or never had a revision. */
  ghost predicate Moved(s: System, job: Job) {
    job.revision == 0 || (job.id in s.rows && s.rows[job.id].revision != job.revision)
  }

  /** What an outcome says about the calls that led to it; the last one has this number. */
  ghost predicate Explains(
    world: World, calls: nat, start: System, trace: seq<Action>, system: System, worker: nat, id: string, o: Outcome)
  {
    match o
    case DidRefresh =>
      && HasJob(system, worker, id)
      && exists save: Save :: save.Refreshed? && WentThrough(world, calls, start, trace, worker, system.jobs[worker], save)
    case DidSkip => HasJob(system, worker, id) && Moved(system, system.jobs[worker])
    case DidFail(Reported(f)) =>
      HasJob(system, worker, id) && WentThrough(world, calls, start, trace, worker, system.jobs[worker], Failed(f))
    case DidFail(Unavailable) =>
      || world.fault(calls) != NoFault || id !in system.rows
      || (HasJob(system, worker, id) && Trim(system.jobs[worker].token) == "")
    case DidFail(StoreBroke) => world.fault(calls) != NoFault || id !in system.rows
  }

  lemma AnswerExplains(
    world: World, calls: nat, start: System, before: seq<Action>, trace: seq<Action>, system: System, worker: nat, job: Job,
    rotated: string, at: int)
    requires HasJob(system, worker, job.id) && system.jobs[worker] == job && calls >= 3 && at == world.now(calls - 3)
    requires Noted(start, before, worker, job.id, at) && before <= trace
    requires GoodAnswer(world, calls - 1, job.token) && rotated == Rotated(job.token, world.reply(calls - 1, job.token).refresh)
    requires EndsWithSave(start, trace, worker, Refreshed(rotated, at))
    ensures Explains(world, calls, start, trace, system, worker, job.id, DidRefresh)
  {
    NotedStays(start, before, trace, worker, job.id, at);
    assert WentThrough(world, calls, start, trace, worker, job, Refreshed(rotated, at));
  }

  /** One attempt of a scan: the account, the trace, the system and the store calls when it was through, and what became of it. */
  datatype Report = Report(account: Listed, trace: seq<Action>, system: System, calls: nat, outcome: Outcome)

  /** The report is about a state the whole trace went through, and its outcome is what the calls up to there say. */
  ghost predicate Vouched(world: World, start: System, trace: seq<Action>, worker: nat, r: Report) {
    && r.trace <= trace && r.system == Play(start, r.trace)
    && Explains(world, r.calls, start, r.trace, r.system, worker, r.account.id, r.outcome)
  }

  ghost predicate AllVouched(world: World, start: System, trace: seq<Action>, worker: nat, reports: seq<Report>) {
    forall i | 0 <= i < |reports| :: Vouched(world, start, trace, worker, reports[i])
  }

  lemma VouchedStays(world: World, start: System, trace: seq<Action>, more: seq<Action>, worker: nat, reports: seq<Report>)
    requires AllVouched(world, start, trace, worker, reports) && trace <= more
    ensures AllVouched(world, start, more, worker, reports)
  {
    forall i | 0 <= i < |reports|
      ensures Vouched(world, start, more, worker, reports[i])
    {
      assert Vouched(world, start, trace, worker, reports[i]);
    }
  }

  // ------------------------------------------------------------------ calm worlds

  /** Nobody else is at work, nothing breaks, and the provider answers every token with a good one. */
  ghost predicate Calm(world: World) {
    (forall k :: CalmAt(world, k)) && (forall k, token :: GoodAnswer(world, k, token))
  }

  ghost predicate CalmAt(world: World, k: nat) {
    world.others(k) == [] && world.fault(k) == NoFault
  }

  /** An account a scan can work with. */
  ghost predicate Usable(s: System, id: string) {
    id in s.rows && Trim(s.rows[id].token) != "" && s.rows[id].revision != 0
  }

  ghost predicate AllUsable(s: System, accounts: seq<Listed>) {
    forall i | 0 <= i < |accounts| && Eligible(accounts[i]) :: Usable(s, accounts[i].id)
  }

  /** The account has been refreshed at that time, the others are untouched. */
  ghost predicate OnlyRefreshed(s: System, t: System, id: string, at: int) {
    && id in s.rows && id in t.rows && t.rows == s.rows[id := t.rows[id]]
    && t.rows[id].attemptedAt == t.rows[id].refreshedAt == Some(at) && t.rows[id].failure == None
    && (t.rows[id].token == s.rows[id].token || t.rows[id].revision == s.rows[id].revision + 1)
  }

  /** What a refresh without interference leaves. */
  lemma CalmRefresh(s: System, worker: nat, id: string, at: int, rotated: string)
    requires Usable(s, id)
    ensures var read := Step(s, Read(worker, id));
            var noted := Step(read, Write(worker, Attempted(at)));
            var t := Step(noted, Write(worker, Refreshed(rotated, at)));
            && Matches(read, worker) && Matches(noted, worker)
            && OnlyRefreshed(s, t, id, at) && Usable(t, id)
  {
    if Trim(rotated) != "" {
      TrimOfTrimmed(Trim(rotated));
    }
  }

  /** What a calm world makes of a usable account. */
  ghost predicate CalmOutcome(world: World, s: System, t: System, id: string, at: int, o: Outcome) {
    Calm(world) && Usable(s, id) ==> o == DidRefresh && OnlyRefreshed(s, t, id, at) && Usable(t, id)
  }

  /** In a calm world in which all accounts were usable, they still are, and every attempt was a refresh. */
  ghost predicate CalmSoFar(world: World, accounts: seq<Listed>, first: System, s: System, reports: seq<Report>) {
    Calm(world) && AllUsable(first, accounts) ==> AllUsable(s, accounts) && AllRefreshed(reports)
  }

  lemma CalmStays(
    world: World, accounts: seq<Listed>, i: nat, first: System, s: System, t: System, at: int, reports: seq<Report>, report: Report)
    requires i < |accounts| && Eligible(accounts[i])
    requires CalmSoFar(world, accounts, first, s, reports) && CalmOutcome(world, s, t, accounts[i].id, at, report.outcome)
    ensures CalmSoFar(world, accounts, first, t, reports + [report])
  {
    if Calm(world) && AllUsable(first, accounts) {
      assert Usable(s, accounts[i].id);
      UsableStays(s, t, accounts[i].id, at, accounts);
    }
  }

  lemma UsableStays(s: System, t: System, id: string, at: int, accounts: seq<Listed>)
    requires AllUsable(s, accounts) && OnlyRefreshed(s, t, id, at) && Usable(t, id)
    ensures AllUsable(t, accounts)
  {
    forall i | 0 <= i < |accounts| && Eligible(accounts[i])
      ensures Usable(t, accounts[i].id)
    {
      assert Usable(s, accounts[i].id);
    }
  }

  ghost predicate AllRefreshed(reports: seq<Report>) {
    forall i | 0 <= i < |reports| :: reports[i].outcome == DidRefresh
  }

  lemma {:induction false} AllRefreshedCount(reports: seq<Report>)
    requires AllRefreshed(reports)
    ensures Tally(reports) == Counters(|reports|, |reports|, 0, 0)
  {
    if reports != [] {
      AllRefreshedCount(reports[..|reports| - 1]);
    }
  }

  /** The counters of a scan in which every attempt was a refresh. */
  lemma CalmCounters(accounts: seq<Listed>, bound: int, reports: seq<Report>, c: Counters)
    requires Accounted(accounts, bound, reports, c) && AllRefreshed(reports)
    ensures c.failed == 0 && c.refreshed == c.attempted
    ensures c.attempted == if |Eligibles(accounts)| <= bound then |Eligibles(accounts)| else bound
  {
    AllRefreshedCount(reports);
    AttemptedUpToLimit(accounts, c.refreshed + c.failed + c.skipped, bound);
  }

  lemma AttemptedUpToLimit(accounts: seq<Listed>, examined: nat, bound: int)
    requires examined <= |accounts| && |Eligibles(accounts[..examined])| <= bound
    requires examined < |accounts| ==> |Eligibles(accounts[..examined])| == bound
    ensures |Eligibles(accounts[..examined])| == if |Eligibles(accounts)| <= bound then |Eligibles(accounts)| else bound
  {
    EligiblesGrow(accounts, examined);
    if examined == |accounts| {
      assert accounts[..examined] == accounts;
    }
  }

  lemma {:induction false} EligiblesGrow(accounts: seq<Listed>, n: nat)
    requires n <= |accounts|
    ensures Eligibles(accounts[..n]) <= Eligibles(accounts)
  {
    if n == |accounts| {
      assert accounts[..n] == accounts;
    } else {
      var before := accounts[..|accounts| - 1];
      EligiblesGrow(before, n);
      assert before[..n] == accounts[..n];
    }
  }

  function AccountsOf(reports: seq<Report>): (r: seq<Listed>)
    ensures |r| == |reports| && forall i | 0 <= i < |r| :: r[i] == reports[i].account
  {
    seq(|reports|, i requires 0 <= i < |reports| => reports[i].account)
  }

  /** One more account on the counters; without an outcome it was not eligible. */
  function Add(c: Counters, o: Option<Outcome>): Counters {
    match o
    case None => c.(skipped := c.skipped + 1)
    case Some(DidRefresh) => c.(attempted := c.attempted + 1, refreshed := c.refreshed + 1)
    case Some(DidFail(_)) => c.(attempted := c.attempted + 1, failed := c.failed + 1)
    case Some(DidSkip) => c.(attempted := c.attempted + 1, skipped := c.skipped + 1)
  }

  function Count(reports: seq<Report>, p: Outcome -> bool): nat {
    if reports == [] then 0
    else
      var n := |reports| - 1;
      Count(reports[..n], p) + (if p(reports[n].outcome) then 1 else 0)
  }

  /** How many outcomes of each sort there are. */
  function Tally(reports: seq<Report>): Counters {
    Counters(|reports|,
             Count(reports, (o: Outcome) => o.DidRefresh?),
             Count(reports, (o: Outcome) => o.DidFail?),
             Count(reports, (o: Outcome) => o.DidSkip?))
  }

  /** A tally and the accounts that were skipped without an attempt. */
  function Plus(c: Counters, skipped: nat): Counters {
    c.(skipped := c.skipped + skipped)
  }

  class Scanner {
    const worker: nat
    const world: World
    var system: System
    var calls: nat
    ghost const start: System
    ghost var trace: seq<Action>

    /** The system is where the actions so far, of this scan and of everyone else, have brought it. */
    ghost predicate Valid()
      reads this
    {
      system == Play(start, trace) && Coherent(start)
    }

    constructor (worker: nat, world: World, system: System)
      requires Coherent(system)
      ensures Valid() && this.worker == worker && this.world == world && start == system && trace == []
      ensures this.system == system && calls == 0
    {
      this.worker, this.world, this.system := worker, world, system;
      calls := 0;
      start, trace := system, [];
    }

    method Act(a: Action)
      requires Valid()
      modifies this
      ensures Valid() && trace == old(trace) + [a] && system == Step(old(system), a) && calls == old(calls)
    {
      system := Step(system, a);
      trace := trace + [a];
      assert trace[..|trace| - 1] == old(trace);
    }

    /** Before a store call anything may happen elsewhere. */
    method Interfere()
      requires Valid()
      modifies this
      ensures Valid() && old(trace) <= trace && SameJob(old(system), system, worker)
      ensures calls == old(calls) + 1
      ensures CalmAt(world, old(calls)) ==> system == old(system)
    {
      var actions := world.others(calls);
      for i := 0 to |actions|
        invariant Valid() && old(trace) <= trace && SameJob(old(system), system, worker)
        invariant calls == old(calls) && (i == 0 ==> system == old(system))
      {
        if Foreign(actions[i], worker) {
          Act(actions[i]);
        }
      }
      calls := calls + 1;
    }

    method ReadAccount(id: string) returns (job: Option<Job>)
      requires Valid()
      modifies this
      ensures Valid() && old(trace) <= trace && calls == old(calls) + 1
      ensures job.Some? ==> HasJob(system, worker, id) && system.jobs[worker] == job.value
      ensures job.None? ==> world.fault(calls) != NoFault || id !in system.rows
      ensures CalmAt(world, old(calls)) && CalmAt(world, calls) && id in old(system).rows ==>
                job.Some? && system == Step(old(system), Read(worker, id))
    {
      Interfere();
      if world.fault(calls) != NoFault || id !in system.rows {
        return None;
      }
      Act(Read(worker, id));
      return Some(system.jobs[worker]);
    }

    method SaveIt(save: Save) returns (r: SaveResult)
      requires Valid()
      modifies this
      ensures Valid() && old(trace) <= trace && SameJob(old(system), system, worker) && calls == old(calls) + 1
      ensures r.Stored? ==> EndsWithSave(start, trace, worker, save)
      ensures r.Conflict? ==> worker in system.jobs && Moved(system, system.jobs[worker])
      ensures r.Broken? ==> world.fault(calls) != NoFault || worker !in system.jobs || system.jobs[worker].id !in system.rows
      ensures CalmAt(world, old(calls)) && CalmAt(world, calls) && Matches(old(system), worker) ==>
                r.Stored? && system == Step(old(system), Write(worker, save))
    {
      Interfere();
      if world.fault(calls).FaultBefore? || worker !in system.jobs {
        return Broken;
      }
      var job := system.jobs[worker];
      if job.revision == 0 {
        return Conflict;
      }
      if job.id !in system.rows {
        return Broken;
      }
      if system.rows[job.id].revision != job.revision {
        return Conflict;
      }
      ghost var before := trace;
      Act(Write(worker, save));
      assert trace[..|trace| - 1] == before;
      return if world.fault(calls).FaultAfter? then Broken else Stored;
    }

    /** The worker has read the account and noted its attempt, which began two store calls ago. */
    ghost predicate Attempting(job: Job, attemptedAt: int)
      reads this
    {
      && Valid() && HasJob(system, worker, job.id) && system.jobs[worker] == job
      && calls >= 2 && attemptedAt == world.now(calls - 2)
      && Noted(start, trace, worker, job.id, attemptedAt)
    }

    /** A failure that cannot be saved because the credentials changed is not counted as a failure. */
    method RecordFailure(job: Job, failure: Failure) returns (o: Outcome)
      requires Attempting(job, failure.at) && BadAnswer(world, calls, job.token, failure.code, failure.relinkRequired)
      modifies this
      ensures Valid() && old(trace) <= trace
      ensures Explains(world, calls, start, trace, system, worker, job.id, o)
    {
      var saved := SaveIt(Failed(failure));
      NotedStays(start, old(trace), trace, worker, job.id, failure.at);
      return if saved.Conflict? then DidSkip else if saved.Broken? then DidFail(StoreBroke) else DidFail(Reported(failure));
    }

    /** Read the account and note the attempt. */
    method BeginAttempt(id: string, attemptedAt: int) returns (job: Option<Job>, o: Outcome)
      requires Valid() && attemptedAt == world.now(calls)
      modifies this
      ensures Valid() && old(trace) <= trace
      ensures job.None? ==> Explains(world, calls, start, trace, system, worker, id, o)
      ensures job.Some? ==> job.value.id == id && Attempting(job.value, attemptedAt)
      ensures Calm(world) && Usable(old(system), id) ==>
                && job.Some?
                && system == Step(Step(old(system), Read(worker, id)), Write(worker, Attempted(attemptedAt)))
    {
      assert Calm(world) ==> CalmAt(world, calls) && CalmAt(world, calls + 1) && CalmAt(world, calls + 2);
      job := ReadAccount(id);
      if job.None? || Trim(job.value.token) == "" {
        return None, DidFail(Unavailable);
      }
      var attempt := SaveIt(Attempted(attemptedAt));
      if attempt.Conflict? {
        return None, DidSkip;
      }
      if attempt.Broken? {
        return None, DidFail(StoreBroke);
      }
      NotedLast(start, trace, worker, id, attemptedAt);
      o := DidSkip;
    }

    /** One eligible account. */
    method RefreshOne(id: string) returns (o: Outcome)
      requires Valid()
      modifies this
      ensures Valid() && old(trace) <= trace
      ensures Explains(world, calls, start, trace, system, worker, id, o)
      ensures CalmOutcome(world, old(system), system, id, world.now(old(calls)), o)
    {
      var attemptedAt := world.now(calls);
      var job;
      job, o := BeginAttempt(id, attemptedAt);
      if job.Some? {
        ghost var answer := world.reply(calls, job.value.token);
        o := CallProvider(job.value, attemptedAt);
        if Calm(world) && Usable(old(system), id) && answer.Token? {
          CalmRefresh(old(system), worker, id, attemptedAt, Rotated(job.value.token, answer.refresh));
        }
      }
    }

    /** The provider call and the save of its answer. */
    method CallProvider(job: Job, attemptedAt: int) returns (o: Outcome)
      requires Attempting(job, attemptedAt)
      modifies this
      ensures Valid() && old(trace) <= trace
      ensures Explains(world, calls, start, trace, system, worker, job.id, o)
      ensures Calm(world) && Matches(old(system), worker) ==>
                && o == DidRefresh && world.reply(old(calls), job.token).Token?
                && var rotated := Rotated(job.token, world.reply(old(calls), job.token).refresh);
                   system == Step(old(system), Write(worker, Refreshed(rotated, attemptedAt)))
    {
      assert Calm(world) ==> GoodAnswer(world, calls, job.token);
      if !world.providerReady(calls) {
        o := RecordFailure(job, Failure("provider_not_ready", false, attemptedAt));
        return;
      }
      var reply := world.reply(calls, job.token);
      if reply.Refused? {
        o := RecordFailure(job, Failure(reply.code, reply.relinkRequired, attemptedAt));
      } else if Trim(reply.access) == "" {
        o := RecordFailure(job, Failure("invalid_response", false, attemptedAt));
      } else {
        o := SaveAnswer(job, reply.refresh, attemptedAt);
      }
    }

    /** A good answer is saved; a refresh token only when it is a new one. */
    method SaveAnswer(job: Job, sent: string, attemptedAt: int) returns (o: Outcome)
      requires Attempting(job, attemptedAt) && GoodAnswer(world, calls, job.token) && sent == world.reply(calls, job.token).refresh
      modifies this
      ensures Valid() && old(trace) <= trace
      ensures Explains(world, calls, start, trace, system, worker, job.id, o)
      ensures Calm(world) && Matches(old(system), worker) ==>
                o == DidRefresh && system == Step(old(system), Write(worker, Refreshed(Rotated(job.token, sent), attemptedAt)))
    {
      assert Calm(world) ==> CalmAt(world, calls) && CalmAt(world, calls + 1);
      var rotated := "";
      if Trim(sent) != "" && sent != job.token {
        rotated := sent;
      }
      assert rotated == Rotated(job.token, sent);
      var saved := SaveIt(Refreshed(rotated, attemptedAt));
      if saved.Stored? {
        AnswerExplains(world, calls, start, old(trace), trace, system, worker, job, rotated, attemptedAt);
        return DidRefresh;
      }
      return if saved.Conflict? then DidSkip else DidFail(StoreBroke);
    }

    /** One listed account: attempted exactly when it is eligible. */
    method Examine(account: Listed) returns (o: Option<Outcome>)
      requires Valid()
      modifies this
      ensures Valid() && old(trace) <= trace
      ensures o.Some? <==> Eligible(account)
      ensures o.Some? ==> Explains(world, calls, start, trace, system, worker, account.id, o.value)
      ensures o.None? ==> system == old(system)
      ensures o.Some? ==> CalmOutcome(world, old(system), system, account.id, world.now(old(calls)), o.value)
    {
      if !EqualFold(Trim(account.providerType), "google") || !account.refreshTokenConfigured {
        return None;
      }
      var outcome := RefreshOne(account.id);
      return Some(outcome);
    }

    /** The scan. */
    method RefreshOAuthTokensOnce(accounts: seq<Listed>, limit: int) returns (r: Option<Counters>, ghost reports: seq<Report>)
      requires Valid()
      modifies this
      ensures Valid() && old(trace) <= trace
      ensures NeverCancelled(world) ==> r.Some?
      ensures AllVouched(world, start, trace, worker, reports)
      ensures r.Some? ==> Accounted(accounts, if limit <= 0 then 100 else limit, reports, r.value)
      ensures CalmSoFar(world, accounts, old(system), system, reports)
    {
      var bound := if limit <= 0 then 100 else limit;
      var c := Counters(0, 0, 0, 0);
      reports := [];
      ScanStarts(world, worker, start, accounts, trace, system);
      for i := 0 to |accounts|
        invariant Valid() && old(trace) <= trace && c.attempted <= bound
        invariant ScanSoFar(world, worker, start, accounts, old(system), i, trace, system, reports, c)
      {
        if world.cancelled(calls) {
          return None, reports;
        }
        if c.attempted >= bound {
          ScanEnds(world, worker, start, accounts, old(system), i, trace, system, reports, c, bound);
          return Some(c), reports;
        }
        ghost var before, was, at := trace, system, world.now(calls);
        var o := Examine(accounts[i]);
        if o.Some? {
          ghost var report := Report(accounts[i], trace, system, calls, o.value);
          ScanAttempts(world, worker, start, accounts, old(system), i, before, was, at, reports, c, report);
          reports := reports + [report];
        } else {
          ScanSkips(world, worker, start, accounts, old(system), i, before, trace, system, reports, c);
        }
        c := Add(c, o);
      }
      ScanEnds(world, worker, start, accounts, old(system), |accounts|, trace, system, reports, c, bound);
      return Some(c), reports;
    }
  }

  ghost predicate NeverCancelled(world: World) {
    forall k :: !world.cancelled(k)
  }

  /** After i accounts: the reports are borne out, the counters are right, and in a calm world nothing has failed. */
  ghost predicate ScanSoFar(
    world: World, worker: nat, start: System, accounts: seq<Listed>, first: System, i: nat,
    trace: seq<Action>, system: System, reports: seq<Report>, c: Counters)
  {
    && AllVouched(world, start, trace, worker, reports)
    && Counted(accounts, i, reports, c)
    && CalmSoFar(world, accounts, first, system, reports)
  }

  lemma VouchedNone(world: World, start: System, trace: seq<Action>, worker: nat)
    ensures AllVouched(world, start, trace, worker, [])
  {
  }

  lemma CalmNone(world: World, accounts: seq<Listed>, system: System)
    ensures CalmSoFar(world, accounts, system, system, [])
  {
    assert AllRefreshed([]);
  }

  lemma ScanStarts(world: World, worker: nat, start: System, accounts: seq<Listed>, trace: seq<Action>, system: System)
    ensures ScanSoFar(world, worker, start, accounts, system, 0, trace, system, [], Counters(0, 0, 0, 0))
  {
    VouchedNone(world, start, trace, worker);
    CountedNone(accounts);
    CalmNone(world, accounts, system);
  }

  lemma ScanEnds(
    world: World, worker: nat, start: System, accounts: seq<Listed>, first: System, i: nat,
    trace: seq<Action>, system: System, reports: seq<Report>, c: Counters, bound: int)
    requires ScanSoFar(world, worker, start, accounts, first, i, trace, system, reports, c)
    requires c.attempted <= bound && (i < |accounts| ==> c.attempted >= bound)
    ensures Accounted(accounts, bound, reports, c)
  {
    CountedIsAccounted(accounts, bound, i, reports, c);
  }

  lemma ScanAttempts(
    world: World, worker: nat, start: System, accounts: seq<Listed>, first: System, i: nat,
    before: seq<Action>, was: System, at: int, reports: seq<Report>, c: Counters, report: Report)
    requires ScanSoFar(world, worker, start, accounts, first, i, before, was, reports, c)
    requires i < |accounts| && Eligible(accounts[i]) && report.account == accounts[i]
    requires before <= report.trace && Vouched(world, start, report.trace, worker, report)
    requires CalmOutcome(world, was, report.system, accounts[i].id, at, report.outcome)
    ensures ScanSoFar(world, worker, start, accounts, first, i + 1,
                      report.trace, report.system, reports + [report], Add(c, Some(report.outcome)))
    ensures Add(c, Some(report.outcome)).attempted == c.attempted + 1
  {
    VouchedStays(world, start, before, report.trace, worker, reports);
    CountedAttempt(accounts, i, reports, c, report);
    CalmStays(world, accounts, i, first, was, report.system, at, reports, report);
  }

  lemma ScanSkips(
    world: World, worker: nat, start: System, accounts: seq<Listed>, first: System, i: nat,
    before: seq<Action>, trace: seq<Action>, system: System, reports: seq<Report>, c: Counters)
    requires ScanSoFar(world, worker, start, accounts, first, i, before, system, reports, c)
    requires i < |accounts| && !Eligible(accounts[i]) && before <= trace
    ensures ScanSoFar(world, worker, start, accounts, first, i + 1, trace, system, reports, Add(c, None))
    ensures Add(c, None).attempted == c.attempted
  {
    VouchedStays(world, start, before, trace, worker, reports);
    CountedSkip(accounts, i, reports, c);
  }

  /** After i accounts: one report for each eligible one, in order, and the counters are their tally and the others. */
  ghost predicate Counted(accounts: seq<Listed>, i: nat, reports: seq<Report>, c: Counters) {
    && i <= |accounts|
    && c.refreshed + c.failed + c.skipped == i
    && |reports| == c.attempted <= i && AccountsOf(reports) == Eligibles(accounts[..i])
    && c == Plus(Tally(reports), i - |reports|)
  }

  /**
   The counters of a finished scan: every account it got to is counted once, the
   eligible ones of those were attempted and tallied by what became of them, and
   the scan stopped early only at the limit.
   */
  ghost predicate Accounted(accounts: seq<Listed>, bound: int, reports: seq<Report>, c: Counters) {
    var examined := c.refreshed + c.failed + c.skipped;
    && examined <= |accounts|
    && |reports| == c.attempted <= examined && AccountsOf(reports) == Eligibles(accounts[..examined])
    && c == Plus(Tally(reports), examined - |reports|)
    && c.attempted <= bound
    && (examined < |accounts| ==> c.attempted == bound)
  }

  lemma CountedIsAccounted(accounts: seq<Listed>, bound: int, i: nat, reports: seq<Report>, c: Counters)
    requires Counted(accounts, i, reports, c) && c.attempted <= bound && (i < |accounts| ==> c.attempted >= bound)
    ensures Accounted(accounts, bound, reports, c)
  {
  }

  lemma CountedNone(accounts: seq<Listed>)
    ensures Counted(accounts, 0, [], Counters(0, 0, 0, 0))
  {
  }

  lemma CountedSkip(accounts: seq<Listed>, i: nat, reports: seq<Report>, c: Counters)
    requires i < |accounts| && Counted(accounts, i, reports, c) && !Eligible(accounts[i])
    ensures Counted(accounts, i + 1, reports, Add(c, None)) && Add(c, None).attempted == c.attempted
  {
    assert accounts[..i + 1][..i] == accounts[..i];
    assert Eligibles(accounts[..i]) + [] == Eligibles(accounts[..i]);
  }

  lemma CountedAttempt(accounts: seq<Listed>, i: nat, reports: seq<Report>, c: Counters, report: Report)
    requires i < |accounts| && Counted(accounts, i, reports, c) && Eligible(accounts[i]) && report.account == accounts[i]
    ensures Counted(accounts, i + 1, reports + [report], Add(c, Some(report.outcome)))
    ensures Add(c, Some(report.outcome)).attempted == c.attempted + 1
  {
    assert accounts[..i + 1][..i] == accounts[..i];
    assert (reports + [report])[..|reports|] == reports;
    assert AccountsOf(reports + [report]) == AccountsOf(reports) + [report.account];
  }

  /** A reported refresh was obtained with the token that the account had at the moment it was saved. */
  lemma RefreshedWithCurrentToken(world: World, start: System, trace: seq<Action>, worker: nat, r: Report)
    requires Coherent(start) && Vouched(world, start, trace, worker, r) && r.outcome.DidRefresh?
    ensures |r.trace| > 0
    ensures var s := Play(start, r.trace[..|r.trace| - 1]);
            && worker in s.jobs && s.jobs[worker].id == r.account.id && r.account.id in s.rows
            && s.rows[r.account.id].token == s.jobs[worker].token
  {
    var before := r.trace[..|r.trace| - 1];
    RunsAreCoherent(start, before);
    var s := Play(start, before);
    assert JobFits(s, s.jobs[worker]);
    assert r.system == Step(s, r.trace[|r.trace| - 1]);
  }

  /** What a save that ends a trace leaves in the account's row. */
  lemma SaveIsInRow(start: System, trace: seq<Action>, worker: nat, id: string, save: Save)
    requires EndsWithSave(start, trace, worker, save) && HasJob(Play(start, trace), worker, id)
    ensures var s, t := Play(start, trace[..|trace| - 1]), Play(start, trace);
            id in s.rows && id in t.rows && t.rows[id] == Saved(s.rows[id], save) && s.jobs == t.jobs
  {
  }

  /** A reported failure is what the row says of the account afterwards. */
  lemma ReportedIsInRow(world: World, start: System, trace: seq<Action>, worker: nat, r: Report)
    requires Vouched(world, start, trace, worker, r) && r.outcome.DidFail? && r.outcome.why.Reported?
    ensures r.account.id in r.system.rows
    ensures var row, f := r.system.rows[r.account.id], r.outcome.why.failure;
            row.failure == Some(f) && row.attemptedAt == Some(f.at)
  {
    SaveIsInRow(start, r.trace, worker, r.account.id, Failed(r.outcome.why.failure));
  }

  /** After a reported refresh the row holds no failure, the time the attempt began, and the newest token the provider sent. */
  lemma RefreshedIsInRow(world: World, start: System, trace: seq<Action>, worker: nat, r: Report)
    requires Coherent(start) && Vouched(world, start, trace, worker, r) && r.outcome.DidRefresh?
    ensures r.account.id in r.system.rows && r.calls >= 3 && worker in r.system.jobs
    ensures var used := r.system.jobs[worker].token;
            && world.reply(r.calls - 1, used).Token?
            && var row, sent := r.system.rows[r.account.id], world.reply(r.calls - 1, used).refresh;
               && row.failure == None && row.refreshedAt == Some(world.now(r.calls - 3))
               && row.token == if Trim(sent) != "" && sent != used then Trim(sent) else used
  {
    var save: Save :| save.Refreshed? && WentThrough(world, r.calls, start, r.trace, worker, r.system.jobs[worker], save);
    SaveIsInRow(start, r.trace, worker, r.account.id, save);
    RefreshedWithCurrentToken(world, start, trace, worker, r);
    TrimOfTrimmed("");
  }
}
