/**
 Does a claimed stream start still own its stream and its services? And what a
 failed start may do to the stream when it does.
 */
module StartClaim {
  import opened Text
  import opened Profiles
  import opened Ordering

  datatype Service = Service(id: string, kind: string, url: string, currentStreamID: string, role: string)

  datatype Stream = Stream(id: string, status: string, body: string)

  /** `identity` is the digest of the stream's row at the time of the claim. */
  datatype Claim = Claim(stream: Stream, identity: string, primaries: seq<Service>)

  /** What the stores hold for the claimed stream; either may fail to load. */
  datatype State = State(stream: Lookup<Stream>, assignments: Option<seq<Service>>)

  /** What must be the same about a claimed and a current primary. */
  datatype Identity = Identity(id: string, kind: string, url: string)

  function IdentityOf(s: Service): Identity {
    Identity(s.id, s.kind, s.url)
  }

  // ------------------------------------------------------------------- primaries

  function Primaries(assignments: seq<Service>): seq<Service> {
    if assignments == [] then []
    else
      var n := |assignments| - 1;
      Primaries(assignments[..n])
      + (if NormalizeRole(assignments[n].role) == "primary" then [assignments[n].(role := "primary")] else [])
  }

  method PrimaryStreamAssignments(assignments: seq<Service>) returns (out: seq<Service>)
    ensures out == Primaries(assignments)
  {
    out := [];
    for i := 0 to |assignments|
      invariant out == Primaries(assignments[..i])
    {
      assert assignments[..i + 1][..i] == assignments[..i];
      if NormalizeRole(assignments[i].role) == "primary" {
        out := out + [assignments[i].(role := "primary")];
      }
    }
    assert assignments[..|assignments|] == assignments;
  }

  // ------------------------------------------------------------------- the check

  predicate Fits(got: Service, want: Service, streamID: string) {
    got.id == want.id && got.kind == want.kind && got.currentStreamID == streamID && got.url == want.url
  }

  predicate Among(primary: seq<Service>, want: Service, streamID: string) {
    exists i | 0 <= i < |primary| :: Fits(primary[i], want, streamID)
  }

  /** As many primaries as claimed, and every claimed one is among them. */
  predicate AllFound(primary: seq<Service>, claimed: seq<Service>, streamID: string) {
    |primary| == |claimed| && forall j | 0 <= j < |claimed| :: Among(primary, claimed[j], streamID)
  }

  ghost predicate Current(c: Claim, digest: Stream -> string, st: State) {
    && st.stream.Found?
    && st.stream.value.status == "starting"
    && digest(st.stream.value) == c.identity
    && st.assignments.Some?
    && AllFound(Primaries(st.assignments.value), c.primaries, st.stream.value.id)
  }

  /** The nested loops. */
  method Matching(primary: seq<Service>, claimed: seq<Service>, streamID: string) returns (ok: bool)
    ensures ok <==> AllFound(primary, claimed, streamID)
  {
    if |primary| != |claimed| {
      return false;
    }
    for j := 0 to |claimed|
      invariant forall k | 0 <= k < j :: Among(primary, claimed[k], streamID)
    {
      var found := false;
      for i := 0 to |primary|
        invariant found <==> exists k | 0 <= k < i :: Fits(primary[k], claimed[j], streamID)
      {
        if primary[i].id == claimed[j].id && primary[i].kind == claimed[j].kind
           && primary[i].currentStreamID == streamID && primary[i].url == claimed[j].url {
          found := true;
        }
      }
      if !found {
        assert !Among(primary, claimed[j], streamID);
        return false;
      }
    }
    return true;
  }

  method StartPreparationClaimCurrent(c: Claim, digest: Stream -> string, st: State) returns (ok: bool)
    ensures ok <==> Current(c, digest, st)
  {
    if !st.stream.Found? || st.stream.value.status != "starting" {
      return false;
    }
    if digest(st.stream.value) != c.identity {
      return false;
    }
    if st.assignments.None? {
      return false;
    }
    var primary := PrimaryStreamAssignments(st.assignments.value);
    ok := Matching(primary, c.primaries, st.stream.value.id);
  }

  // ------------------------------------------------------------------- the pigeonhole

  ghost predicate Distinct<T(!new)>(s: seq<T>) {
    forall i, j | 0 <= i < j < |s| :: s[i] != s[j]
  }

  /** If every element of a duplicate-free list is in a list of the same length, the two are permutations. */
  lemma {:induction false} Pigeonhole<T(!new)>(want: seq<T>, got: seq<T>)
    requires Distinct(want) && |want| == |got| && forall x | x in want :: x in got
    ensures multiset(want) == multiset(got)
  {
    if want == [] {
      assert want == got;
    } else {
      var n := |want| - 1;
      assert want[n] in got;
      var i :| 0 <= i < |got| && got[i] == want[n];
      var rest := got[..i] + got[i + 1..];
      forall x | x in want[..n]
        ensures x in rest
      {
        RestHas(got, i, x);
      }
      Pigeonhole(want[..n], rest);
      assert want == want[..n] + [want[n]];
      assert got == got[..i] + [got[i]] + got[i + 1..];
    }
  }

  lemma RestHas<T>(got: seq<T>, i: nat, x: T)
    requires i < |got| && x in got && x != got[i]
    ensures x in got[..i] + got[i + 1..]
  {
    var rest := got[..i] + got[i + 1..];
    var k :| 0 <= k < |got| && got[k] == x;
    assert rest[if k < i then k else k - 1] == x;
  }

  /** No two claimed services agree on id, type and URL. */
  ghost predicate DistinctClaim(claimed: seq<Service>) {
    Distinct(Mapped(claimed, IdentityOf))
  }

  /** The claim store takes one primary of each type, so what it hands out is distinct. */
  lemma OnePerTypeIsDistinct(claimed: seq<Service>)
    requires forall i, j | 0 <= i < j < |claimed| :: claimed[i].kind != claimed[j].kind
    ensures DistinctClaim(claimed)
  {
    var want := Mapped(claimed, IdentityOf);
    forall i, j | 0 <= i < j < |want|
      ensures want[i] != want[j]
    {
      assert want[i].kind == claimed[i].kind && want[j].kind == claimed[j].kind;
    }
  }

  ghost predicate AllOn(primary: seq<Service>, streamID: string) {
    forall i | 0 <= i < |primary| :: primary[i].currentStreamID == streamID
  }

  lemma FoundGivesPermutation(primary: seq<Service>, claimed: seq<Service>, streamID: string)
    requires DistinctClaim(claimed) && AllFound(primary, claimed, streamID)
    ensures multiset(Mapped(claimed, IdentityOf)) == multiset(Mapped(primary, IdentityOf))
  {
    var want, got := Mapped(claimed, IdentityOf), Mapped(primary, IdentityOf);
    forall x | x in want
      ensures x in got
    {
      var j :| 0 <= j < |claimed| && want[j] == x;
      assert Among(primary, claimed[j], streamID);
      var i :| 0 <= i < |primary| && Fits(primary[i], claimed[j], streamID);
      assert got[i] == x;
    }
    Pigeonhole(want, got);
  }

  /** Every current primary is one of the claimed ones, and runs this stream. */
  lemma FoundCoversPrimaries(primary: seq<Service>, claimed: seq<Service>, streamID: string, k: nat)
    requires DistinctClaim(claimed) && AllFound(primary, claimed, streamID) && k < |primary|
    ensures primary[k].currentStreamID == streamID
  {
    FoundGivesPermutation(primary, claimed, streamID);
    var want, got := Mapped(claimed, IdentityOf), Mapped(primary, IdentityOf);
    assert got[k] in multiset(want);
    var j :| 0 <= j < |want| && want[j] == got[k];
    assert Among(primary, claimed[j], streamID);
    var i :| 0 <= i < |primary| && Fits(primary[i], claimed[j], streamID);
    PermutationIsDistinct(want, got);
    assert got[i] == got[k];
  }

  lemma PermutationIsDistinct<T(!new)>(a: seq<T>, b: seq<T>)
    requires Distinct(a) && multiset(a) == multiset(b)
    ensures Distinct(b)
  {
    forall i, j | 0 <= i < j < |b|
      ensures b[i] != b[j]
    {
      if b[i] == b[j] {
        CountTwice(b, i, j);
        CountOnce(a, b[i]);
      }
    }
  }

  lemma CountTwice<T>(s: seq<T>, i: nat, j: nat)
    requires i < j < |s| && s[i] == s[j]
    ensures multiset(s)[s[i]] >= 2
  {
    assert s == s[..i] + [s[i]] + s[i + 1..j] + [s[j]] + s[j + 1..];
  }

  lemma {:induction false} CountOnce<T(!new)>(s: seq<T>, x: T)
    requires Distinct(s)
    ensures multiset(s)[x] <= 1
  {
    if s != [] {
      var n := |s| - 1;
      CountOnce(s[..n], x);
      assert s == s[..n] + [s[n]];
    }
  }

  lemma PermutationIsFound(primary: seq<Service>, claimed: seq<Service>, streamID: string)
    requires AllOn(primary, streamID) && multiset(Mapped(claimed, IdentityOf)) == multiset(Mapped(primary, IdentityOf))
    ensures AllFound(primary, claimed, streamID)
  {
    var want, got := Mapped(claimed, IdentityOf), Mapped(primary, IdentityOf);
    assert |claimed| == |multiset(want)| == |multiset(got)| == |primary|;
    forall j | 0 <= j < |claimed|
      ensures Among(primary, claimed[j], streamID)
    {
      assert want[j] in multiset(got);
      var i :| 0 <= i < |got| && got[i] == want[j];
      assert Fits(primary[i], claimed[j], streamID);
    }
  }

  /**
   For distinct claimed services the check passes exactly when the current
   primaries are a permutation of the claimed ones on id, type and URL and all of
   them run this stream.
   */
  lemma MatchingIsPermutation(primary: seq<Service>, claimed: seq<Service>, streamID: string)
    requires DistinctClaim(claimed)
    ensures AllFound(primary, claimed, streamID) <==>
            AllOn(primary, streamID) && multiset(Mapped(claimed, IdentityOf)) == multiset(Mapped(primary, IdentityOf))
  {
    if AllFound(primary, claimed, streamID) {
      FoundGivesPermutation(primary, claimed, streamID);
      forall k | 0 <= k < |primary|
        ensures primary[k].currentStreamID == streamID
      {
        FoundCoversPrimaries(primary, claimed, streamID, k);
      }
    } else if AllOn(primary, streamID) && multiset(Mapped(claimed, IdentityOf)) == multiset(Mapped(primary, IdentityOf)) {
      PermutationIsFound(primary, claimed, streamID);
    }
  }

  /** Services on the stream pass as themselves. */
  function OnStream(claimed: seq<Service>, streamID: string): (r: seq<Service>)
    ensures |r| == |claimed| && forall i | 0 <= i < |r| :: r[i] == claimed[i].(currentStreamID := streamID)
  {
    seq(|claimed|, i requires 0 <= i < |claimed| => claimed[i].(currentStreamID := streamID))
  }

  /** With a service claimed twice, one of the two places can hold a service that was never claimed. */
  lemma RepeatedClaimHidesAService(claimed: seq<Service>, streamID: string, i: nat, j: nat) returns (primary: seq<Service>)
    requires i < j < |claimed| && IdentityOf(claimed[i]) == IdentityOf(claimed[j])
    ensures AllFound(primary, claimed, streamID)
    ensures multiset(Mapped(claimed, IdentityOf)) != multiset(Mapped(primary, IdentityOf))
  {
    var other := claimed[j].(id := claimed[j].id + "x");
    var same := OnStream(claimed, streamID);
    primary := same[j := other];
    forall k | 0 <= k < |claimed|
      ensures Among(primary, claimed[k], streamID)
    {
      assert Fits(primary[if k == j then i else k], claimed[k], streamID);
    }
    var want, got := Mapped(claimed, IdentityOf), Mapped(primary, IdentityOf);
    assert got == want[j := IdentityOf(other)];
    assert multiset(got) == multiset(want) - multiset{want[j]} + multiset{IdentityOf(other)};
    assert other.id != claimed[j].id;
    assert multiset(got)[want[j]] == multiset(want)[want[j]] - 1;
  }

  ghost predicate AlwaysPermutation(claimed: seq<Service>, streamID: string) {
    forall primary | AllFound(primary, claimed, streamID) ::
      multiset(Mapped(claimed, IdentityOf)) == multiset(Mapped(primary, IdentityOf))
  }

  /** How much the check says: what passes is always a permutation exactly when the claimed services are distinct. */
  lemma PassingIsPermutationExactlyWhen(claimed: seq<Service>, streamID: string)
    ensures AlwaysPermutation(claimed, streamID) <==> DistinctClaim(claimed)
  {
    if DistinctClaim(claimed) {
      forall primary | AllFound(primary, claimed, streamID)
        ensures multiset(Mapped(claimed, IdentityOf)) == multiset(Mapped(primary, IdentityOf))
      {
        FoundGivesPermutation(primary, claimed, streamID);
      }
    } else {
      var want := Mapped(claimed, IdentityOf);
      var i, j :| 0 <= i < j < |want| && want[i] == want[j];
      var primary := RepeatedClaimHidesAService(claimed, streamID, i, j);
    }
  }

  /** With a digest that tells rows apart, a current claim still has the very row it claimed. */
  lemma CurrentMeansUnchanged(c: Claim, digest: Stream -> string, st: State)
    requires forall a, b :: digest(a) == digest(b) ==> a == b
    requires c.identity == digest(c.stream) && DistinctClaim(c.primaries) && Current(c, digest, st)
    ensures st.stream == Found(c.stream) && c.stream.status == "starting"
    ensures var primary := Primaries(st.assignments.value);
            AllOn(primary, c.stream.id) && multiset(Mapped(c.primaries, IdentityOf)) == multiset(Mapped(primary, IdentityOf))
  {
    MatchingIsPermutation(Primaries(st.assignments.value), c.primaries, c.stream.id);
  }

  // ------------------------------------------------------------------- a failed start

  /** What is known of the remote side when a start fails. */
  datatype Preparation = Preparation(cleanup: Option<bool>, encoderPrepared: bool, workerAttempted: bool, hasCheck: bool)

  /** Nothing can be left running: the cleanup confirmed it, or no request was ever made. */
  predicate CleanedUp(p: Preparation) {
    match p.cleanup
    case Some(confirmed) => confirmed
    case None => !p.encoderPrepared && !p.workerAttempted
  }

  datatype Followup = Nothing | AbandonRelay | CompleteRuntime

  /** Whether a transition works, is refused, or fails with or without effect; and what others do in between. */
  datatype Transition = Works | Refused | ErrorBefore | ErrorAfter
  datatype World = World(others: nat -> State, transition: Transition)

  class Panel {
    var state: State
    /** The statuses this process has written. */
    var written: seq<string>

    constructor (state: State)
      ensures this.state == state && written == []
    {
      this.state := state;
      written := [];
    }

    /** The store moves the stream only while it is starting and has the claimed identity. */
    method TransitionClaimed(c: Claim, digest: Stream -> string, status: string, how: Transition) returns (ok: bool)
      modifies this
      ensures ok ==> written == old(written) + [status]
      ensures ok <==> how.Works? && old(state).stream.Found? && old(state).stream.value.status == "starting"
                      && digest(old(state).stream.value) == c.identity
      ensures written == old(written) || written == old(written) + [status]
      ensures written != old(written) ==>
                && old(state).stream.Found? && old(state).stream.value.status == "starting"
                && digest(old(state).stream.value) == c.identity
                && state == old(state).(stream := Found(old(state).stream.value.(status := status)))
      ensures written == old(written) ==> state == old(state)
    {
      if how.Refused? || how.ErrorBefore? || !state.stream.Found? || state.stream.value.status != "starting"
         || digest(state.stream.value) != c.identity {
        return false;
      }
      state := state.(stream := Found(state.stream.value.(status := status)));
      written := written + [status];
      return how.Works?;
    }

    /**
     The failure path. It writes a status only after the cleanup is confirmed and
     the claim was seen current after that (`seen`), and what it writes is "failed".
     */
    method FailPreparedStreamStart(
      c: Claim, digest: Stream -> string, p: Preparation, relayStatic: bool, world: World, code: string)
      returns (safe: bool, reported: string, followup: Followup, ghost seen: State)
      modifies this
      ensures written == old(written) || written == old(written) + ["failed"]
      ensures written != old(written) ==> CleanedUp(p) && p.hasCheck && Current(c, digest, seen) && seen == world.others(0)
      ensures safe ==> written == old(written) + ["failed"]
      ensures safe <==> CleanedUp(p) && p.hasCheck && Current(c, digest, world.others(0)) && world.transition.Works?
                        && world.others(1).stream.Found? && world.others(1).stream.value.status == "starting"
                        && digest(world.others(1).stream.value) == c.identity
      ensures reported == if safe then code else "start_preparation_ownership_unknown"
      ensures followup == if !safe then Nothing else if relayStatic then AbandonRelay else CompleteRuntime
    {
      safe := p.cleanup.None? && !p.encoderPrepared && !p.workerAttempted;
      if p.cleanup.Some? {
        safe := p.cleanup.value;
      }
      state := world.others(0);
      seen := state;
      if safe {
        safe := p.hasCheck;
      }
      if safe {
        safe := StartPreparationClaimCurrent(c, digest, state);
      }
      if safe {
        state := world.others(1);
        safe := TransitionClaimed(c, digest, "failed", world.transition);
      }
      reported, followup := code, Nothing;
      if !safe {
        reported := "start_preparation_ownership_unknown";
      } else if relayStatic {
        followup := AbandonRelay;
      } else {
        followup := CompleteRuntime;
      }
    }
  }
}
