/**
 The refresh of OAuth access tokens: rows whose revision grows with every new
 refresh token, jobs that remember what they read, and saves that compare the
 revision. Any number of scans, relinks and removals interleave.
 */
module OAuthRefresh {
  import opened Text

  datatype Failure = Failure(code: string, relinkRequired: bool, at: int)

  /** An account: its refresh token, the token's revision and what the last refreshes did. */
  datatype Row = Row(token: string, revision: nat, attemptedAt: Option<int>, refreshedAt: Option<int>, failure: Option<Failure>)

  /** What one worker read before it called the provider. */
  datatype Job = Job(id: string, token: string, revision: nat)

  /** `used` are the ids ever given out; the store never gives one out again. */
  datatype System = System(rows: map<string, Row>, used: set<string>, jobs: map<nat, Job>)

  /** What other handlers do to an account. */
  datatype Change = Relink(id: string, token: string) | Create(id: string, token: string) | Remove(id: string)

  datatype Save = Attempted(at: int) | Failed(failure: Failure) | Refreshed(rotated: string, at: int)

  datatype Action = Other(change: Change) | Read(worker: nat, id: string) | Write(worker: nat, save: Save)

  // ---------------------------------------------------------------------- steps

  function Changed(s: System, c: Change): System {
    match c
    case Relink(id, token) =>
      if id in s.rows && token != "" then
        s.(rows := s.rows[id := Row(token, s.rows[id].revision + 1, None, None, None)])
      else s
    case Create(id, token) =>
      if id in s.used then s
      else s.(rows := s.rows[id := Row(token, 1, None, None, None)], used := s.used + {id})
    case Remove(id) => s.(rows := s.rows - {id})
  }

  function ReadBy(s: System, w: nat, id: string): System {
    if id in s.rows then s.(jobs := s.jobs[w := Job(id, s.rows[id].token, s.rows[id].revision)]) else s
  }

  /** What a save leaves of the row whose revision it matched. */
  function Saved(r: Row, save: Save): Row {
    match save
    case Attempted(at) => r.(attemptedAt := Some(at))
    case Failed(f) => r.(attemptedAt := Some(f.at), failure := Some(f))
    case Refreshed(rotated, at) =>
      var seen := r.(attemptedAt := Some(at), refreshedAt := Some(at), failure := None);
      if Trim(rotated) == "" then seen else seen.(token := Trim(rotated), revision := r.revision + 1)
  }

  /** The comparison of the store: the row is there and its revision is the expected one. */
  predicate Matches(s: System, w: nat) {
    w in s.jobs && s.jobs[w].id in s.rows && s.rows[s.jobs[w].id].revision == s.jobs[w].revision != 0
  }

  function WrittenBy(s: System, w: nat, save: Save): System {
    if Matches(s, w) then
      var id := s.jobs[w].id;
      s.(rows := s.rows[id := Saved(s.rows[id], save)])
    else s
  }

  function Step(s: System, a: Action): System {
    match a
    case Other(c) => Changed(s, c)
    case Read(w, id) => ReadBy(s, w, id)
    case Write(w, save) => WrittenBy(s, w, save)
  }

  function Play(s: System, actions: seq<Action>): System {
    if actions == [] then s
    else
      var n := |actions| - 1;
      Step(Play(s, actions[..n]), actions[n])
  }

  lemma {:induction false} PlayTwice(s: System, a: seq<Action>, b: seq<Action>)
    ensures Play(s, a + b) == Play(Play(s, a), b)
  {
    if b == [] {
      assert a + b == a;
    } else {
      var n := |b| - 1;
      PlayTwice(s, a, b[..n]);
      assert (a + b)[..|a + b| - 1] == a + b[..n];
    }
  }

  // ----------------------------------------------------------------- the invariant

  /** A job's revision is never ahead of the row's, and while it is the same the job's token is the row's. */
  predicate JobFits(s: System, j: Job) {
    && j.id in s.used
    && (j.id in s.rows ==>
          && j.revision <= s.rows[j.id].revision
          && (j.revision == s.rows[j.id].revision ==> j.token == s.rows[j.id].token))
  }

  ghost predicate Coherent(s: System) {
    && (forall id | id in s.rows :: id in s.used)
    && (forall w | w in s.jobs :: JobFits(s, s.jobs[w]))
  }

  lemma StepKeepsCoherent(s: System, a: Action)
    requires Coherent(s)
    ensures Coherent(Step(s, a))
  {
    var t := Step(s, a);
    forall w | w in t.jobs
      ensures JobFits(t, t.jobs[w])
    {
      assert w in s.jobs ==> JobFits(s, s.jobs[w]);
    }
  }

  /** A step leaves a row's token and revision alone, or counts the revision up by one for a new token. */
  lemma RevisionCountsTokens(s: System, a: Action, id: string)
    requires id in s.rows && id in s.used && id in Step(s, a).rows
    ensures var r, r' := s.rows[id], Step(s, a).rows[id];
            (r'.revision == r.revision && r'.token == r.token) || r'.revision == r.revision + 1
  {
  }

  lemma {:induction false} RunsAreCoherent(s: System, actions: seq<Action>)
    requires Coherent(s)
    ensures Coherent(Play(s, actions))
  {
    if actions != [] {
      var n := |actions| - 1;
      RunsAreCoherent(s, actions[..n]);
      StepKeepsCoherent(Play(s, actions[..n]), actions[n]);
    }
  }

  /** In every run, a save that takes effect was obtained with the token the row holds at that moment. */
  lemma SavesUseCurrentToken(s: System, actions: seq<Action>, w: nat, save: Save)
    requires Coherent(s)
    requires var t := Play(s, actions); Step(t, Write(w, save)) != t
    ensures var t := Play(s, actions); w in t.jobs && t.jobs[w].id in t.rows && t.rows[t.jobs[w].id].token == t.jobs[w].token
  {
    RunsAreCoherent(s, actions);
    var t := Play(s, actions);
    assert JobFits(t, t.jobs[w]);
  }

  // ------------------------------------------------------------------- relinks win

  /** Whatever the worker still wants to save, its comparison fails. */
  predicate Stale(s: System, w: nat) {
    && w in s.jobs
    && s.jobs[w].id in s.used
    && (s.jobs[w].id in s.rows ==> s.jobs[w].revision < s.rows[s.jobs[w].id].revision)
  }

  predicate ReadsFor(a: Action, w: nat) {
    a.Read? && a.worker == w
  }

  ghost predicate NoReads(actions: seq<Action>, w: nat) {
    forall i | 0 <= i < |actions| :: !ReadsFor(actions[i], w)
  }

  lemma StepKeepsStale(s: System, a: Action, w: nat)
    requires Stale(s, w) && !ReadsFor(a, w)
    ensures Stale(Step(s, a), w)
  {
  }

  lemma {:induction false} RunsKeepStale(s: System, actions: seq<Action>, w: nat)
    requires Stale(s, w) && NoReads(actions, w)
    ensures Stale(Play(s, actions), w)
  {
    if actions != [] {
      var n := |actions| - 1;
      RunsKeepStale(s, actions[..n], w);
      StepKeepsStale(Play(s, actions[..n]), actions[n], w);
    }
  }

  lemma {:induction false} RunsKeepJob(s: System, actions: seq<Action>, w: nat)
    requires w in s.jobs && NoReads(actions, w)
    ensures w in Play(s, actions).jobs && Play(s, actions).jobs[w] == s.jobs[w]
  {
    if actions != [] {
      var n := |actions| - 1;
      RunsKeepJob(s, actions[..n], w);
    }
  }

  /** Does this replace the credentials of the account, or take it away? */
  predicate Replaces(s: System, c: Change, id: string) {
    && id in s.rows
    && (c == Remove(id) || (c.Relink? && c.id == id && c.token != ""))
  }

  /**
   After a worker has read an account, any interleaving in which the account is
   relinked or removed before the worker saves leaves every one of its saves
   without effect, until it reads again.
   */
  lemma RelinkAlwaysWins(
    s: System, w: nat, id: string, before: seq<Action>, change: Change, after: seq<Action>, save: Save)
    requires Coherent(s) && id in s.rows
    requires NoReads(before, w) && NoReads(after, w)
    requires Replaces(Play(Step(s, Read(w, id)), before), change, id)
    ensures var t := Play(Step(s, Read(w, id)), before + [Other(change)] + after);
            Step(t, Write(w, save)) == t
  {
    var a := Step(s, Read(w, id));
    StepKeepsCoherent(s, Read(w, id));
    var b := Play(a, before);
    RunsAreCoherent(a, before);
    RunsKeepJob(a, before, w);
    var c := Step(b, Other(change));
    assert JobFits(b, b.jobs[w]) && id in b.used;
    assert Stale(c, w);
    RunsKeepStale(c, after, w);
    assert before + [Other(change)] + after == before + ([Other(change)] + after);
    PlayTwice(a, before, [Other(change)] + after);
    PlayTwice(b, [Other(change)], after);
    assert Play(b, [Other(change)]) == c;
  }

  /** A rotation that one worker saved makes every other worker that read before it just as stale. */
  lemma RotationAlsoWins(s: System, w: nat, other: nat, rotated: string, at: int, after: seq<Action>, save: Save)
    requires Coherent(s) && w in s.jobs && other in s.jobs && s.jobs[w].id == s.jobs[other].id
    requires Matches(s, other) && Trim(rotated) != "" && NoReads(after, w)
    ensures var t := Play(Step(s, Write(other, Refreshed(rotated, at))), after);
            Step(t, Write(w, save)) == t
  {
    var t := Step(s, Write(other, Refreshed(rotated, at)));
    assert JobFits(s, s.jobs[w]);
    assert Stale(t, w);
    RunsKeepStale(t, after, w);
  }
}
