/**
 The archive-mapping correction that migrations 081 and 083 run in one
 transaction: every artifact in the 080 backup is moved to its run directory,
 or nothing changes at all.
 */
module ArchiveMapping {
  import opened Text

  /** A row of stream_artifacts. */
  datatype Artifact = Artifact(
    id: string, streamID: string, name: string, path: string, runID: string,
    started: Option<int>, created: Option<int>)

  /** A row of the 080 backup, keyed by artifact id; `path` is null until a correction saves it. */
  datatype Backup = Backup(
    run: Option<string>, started: Option<int>, sourcePrint: string,
    path: Option<string>, pathPrint: Option<string>)

  /** The tables of the correction; `gate` holds when the artifact gate was last verified. */
  datatype Tables = Tables(current: seq<Artifact>, backup: map<string, Backup>, gate: Option<int>)

  /** The digests the database computes and the case folding of destinations, all arbitrary. */
  datatype Digests = Digests(
    source: (string, Option<string>, Option<int>) -> string,
    sha: string -> string,
    fold: string -> string)

  datatype Error = BackupMismatch | Conflict(id: string) | Collision

  /** The primary key of stream_artifacts. */
  ghost predicate Keyed(current: seq<Artifact>) {
    forall i, j | 0 <= i < j < |current| :: current[i].id != current[j].id
  }

  // ------------------------------------------------------------- one artifact

  predicate IsHex(c: char) {
    '0' <= c <= '9' || 'a' <= c <= 'f' || 'A' <= c <= 'F'
  }

  /** Hex digits in groups of 8, 4, 4, 4 and 12. */
  predicate IsStreamID(s: string) {
    |s| == 36 && forall i | 0 <= i < 36 :: if i in {8, 13, 18, 23} then s[i] == '-' else IsHex(s[i])
  }

  predicate IsComponent(value: string) {
    && Trim(value) != "" && value != "." && value != ".."
    && (forall i | 0 <= i < |value| :: value[i] != '/' && value[i] != '\\')
    && (forall i | 0 <= i < |value| :: value[i] >= ' ' && value[i] != '\U{7F}')
  }

  function Undashed(s: string): string {
    if s == "" then "" else (if s[0] == '-' then "" else [s[0]]) + Undashed(s[1..])
  }

  function FlatPath(streamID: string, name: string): string {
    "final/" + streamID + "/" + name
  }

  function RunPath(streamID: string, run: string, name: string): string {
    "final/" + streamID + "/" + run + "/" + name
  }

  function LegacyRun(streamID: string): string {
    "legacy-" + Lower(Undashed(streamID))
  }

  /** What a backed-up artifact is moved to, and the original path that is saved for it. */
  datatype Move = Move(original: string, run: string, path: string)

  predicate PathEvidence(b: Backup, sha: string -> string) {
    if b.path.None? then b.pathPrint.None? else b.pathPrint == Some(sha(b.path.value))
  }

  /** prepareArchiveMapping, without its error texts. */
  function Prepare(m: Artifact, b: Backup, sha: string -> string): Option<Move> {
    if !IsStreamID(m.streamID) || !IsComponent(m.name) || !PathEvidence(b, sha) then None
    else
      var flat := FlatPath(m.streamID, m.name);
      var legacyRun := LegacyRun(m.streamID);
      var legacyPath := RunPath(m.streamID, legacyRun, m.name);
      var original := b.path.GetOr(m.path);
      var run := b.run.GetOr("");
      if run == "" then
        if original != flat || m.runID != legacyRun || (m.path != flat && m.path != legacyPath) then None
        else Some(Move(original, legacyRun, legacyPath))
      else if !IsComponent(run) || original != RunPath(m.streamID, run, m.name) then None
      else
        var preserved := m.runID == run && m.path == original;
        var old081 := b.path.Some? && m.runID == legacyRun && m.path == legacyPath;
        if !preserved && !old081 then None else Some(Move(original, run, original))
  }

  function Coalesce(a: Option<int>, b: Option<int>): Option<int> {
    if a.Some? then a else b
  }

  function MoveArtifact(m: Artifact, b: Backup, v: Move): Artifact {
    m.(runID := v.run, path := v.path, started := Coalesce(Coalesce(m.started, b.started), m.created))
  }

  function SavePath(b: Backup, v: Move, sha: string -> string): Backup {
    if b.path.None? then b.(path := Some(v.original), pathPrint := Some(sha(v.original))) else b
  }

  // ------------------------------------------------------- the whole table

  predicate BackedUp(t: Tables, m: Artifact) {
    m.id in t.backup
  }

  /** Where a row ends up; rows outside the backup stay. */
  function Destination(t: Tables, m: Artifact, d: Digests): string
    requires BackedUp(t, m) ==> Prepare(m, t.backup[m.id], d.sha).Some?
  {
    if BackedUp(t, m) then Prepare(m, t.backup[m.id], d.sha).value.path else m.path
  }

  /** The row that a backup entry describes is there, and the entry carries its fingerprint. */
  predicate EntryValid(t: Tables, d: Digests, id: string)
    requires id in t.backup
  {
    && (exists i | 0 <= i < |t.current| :: t.current[i].id == id)
    && t.backup[id].sourcePrint == d.source(id, t.backup[id].run, t.backup[id].started)
  }

  predicate BackupValid(t: Tables, d: Digests) {
    forall id | id in t.backup :: EntryValid(t, d, id)
  }

  predicate Prepared(t: Tables, d: Digests, i: nat)
    requires i < |t.current|
  {
    BackedUp(t, t.current[i]) ==> Prepare(t.current[i], t.backup[t.current[i].id], d.sha).Some?
  }

  ghost predicate AllPrepared(t: Tables, d: Digests, n: nat)
    requires n <= |t.current|
  {
    forall i | 0 <= i < n :: Prepared(t, d, i)
  }

  /** Two rows share a folded destination, and the correction moves at least one of them there. */
  ghost predicate Collide(t: Tables, d: Digests, i: nat, j: nat)
    requires i < |t.current| && j < |t.current| && Prepared(t, d, i) && Prepared(t, d, j)
  {
    && d.fold(Destination(t, t.current[i], d)) == d.fold(Destination(t, t.current[j], d))
    && (BackedUp(t, t.current[i]) || BackedUp(t, t.current[j]))
  }

  ghost predicate NoCollision(t: Tables, d: Digests, n: nat)
    requires n <= |t.current| && AllPrepared(t, d, n)
  {
    forall i, j | 0 <= i < j < n :: !Collide(t, d, i, j)
  }

  /** What the whole mapping is checked for before anything changes. */
  ghost predicate Acceptable(t: Tables, d: Digests) {
    && BackupValid(t, d)
    && AllPrepared(t, d, |t.current|)
    && NoCollision(t, d, |t.current|)
  }

  function MovedRow(t: Tables, m: Artifact, d: Digests): Artifact
    requires BackedUp(t, m) ==> Prepare(m, t.backup[m.id], d.sha).Some?
  {
    if BackedUp(t, m) then MoveArtifact(m, t.backup[m.id], Prepare(m, t.backup[m.id], d.sha).value) else m
  }

  function SavedEntry(t: Tables, m: Artifact, d: Digests): Backup
    requires BackedUp(t, m) && Prepare(m, t.backup[m.id], d.sha).Some?
  {
    SavePath(t.backup[m.id], Prepare(m, t.backup[m.id], d.sha).value, d.sha)
  }

  /** The place of the row that a backup entry describes. */
  ghost function RowOf(current: seq<Artifact>, id: string): (i: nat)
    requires exists i | 0 <= i < |current| :: current[i].id == id
    ensures i < |current| && current[i].id == id
  {
    var i :| 0 <= i < |current| && current[i].id == id;
    i
  }

  ghost predicate RowCorrected(t: Tables, t': Tables, d: Digests, i: nat)
    requires i < |t.current| && |t'.current| == |t.current| && Prepared(t, d, i)
  {
    var m := t.current[i];
    && t'.current[i] == MovedRow(t, m, d)
    && (BackedUp(t, m) ==> m.id in t'.backup && t'.backup[m.id] == SavedEntry(t, m, d))
  }

  /** What a successful correction leaves behind: moved rows, saved original paths, an open gate. */
  ghost predicate Corrected(t: Tables, t': Tables, d: Digests, now: int)
    requires Acceptable(t, d)
  {
    && |t'.current| == |t.current|
    && t'.backup.Keys == t.backup.Keys
    && (forall i | 0 <= i < |t.current| :: RowCorrected(t, t', d, i))
    && t'.gate == Some(now)
  }

  lemma EntryHasRow(t: Tables, d: Digests, id: string) returns (i: nat)
    requires BackupValid(t, d) && id in t.backup
    ensures i < |t.current| && t.current[i].id == id
  {
    assert EntryValid(t, d, id);
    i := RowOf(t.current, id);
  }

  /** A correction has one outcome. */
  lemma CorrectedIsUnique(t: Tables, a: Tables, b: Tables, d: Digests, now: int)
    requires Acceptable(t, d) && Corrected(t, a, d, now) && Corrected(t, b, d, now)
    ensures a == b
  {
    forall i | 0 <= i < |t.current|
      ensures a.current[i] == b.current[i]
    {
      assert RowCorrected(t, a, d, i) && RowCorrected(t, b, d, i);
    }
    forall id | id in t.backup
      ensures a.backup[id] == b.backup[id]
    {
      var i := EntryHasRow(t, d, id);
      assert RowCorrected(t, a, d, i) && RowCorrected(t, b, d, i);
    }
    assert a.backup == b.backup;
    assert a.current == b.current;
  }

  // --------------------------------------------------- where an artifact ends up

  /** Where a corrected artifact is: in its own run if the backup knows one, else in the legacy run of its stream. */
  ghost predicate InItsRun(m: Artifact, b: Backup, m': Artifact) {
    var run := if b.run.Some? && b.run.value != "" then b.run.value else LegacyRun(m.streamID);
    m'.runID == run && m'.path == "final/" + m.streamID + "/" + run + "/" + m.name
  }

  /** The rest of the row: the start is filled in from the backup or the creation, nothing else changes. */
  ghost predicate OnlyMoved(m: Artifact, b: Backup, m': Artifact) {
    && m'.id == m.id && m'.streamID == m.streamID && m'.name == m.name && m'.created == m.created
    && m'.started == (if m.started.Some? then m.started else if b.started.Some? then b.started else m.created)
  }

  /** The backup keeps the path from before the first move, with its digest. */
  ghost predicate OriginalSaved(m: Artifact, b: Backup, b': Backup, sha: string -> string) {
    && b'.run == b.run && b'.started == b.started && b'.sourcePrint == b.sourcePrint
    && b'.path == Some(if b.path.Some? then b.path.value else m.path)
    && b'.pathPrint == Some(sha(b'.path.value))
  }

  lemma MovedWhere(m: Artifact, b: Backup, sha: string -> string)
    requires Prepare(m, b, sha).Some?
    ensures var v := Prepare(m, b, sha).value;
            && InItsRun(m, b, MoveArtifact(m, b, v)) && OnlyMoved(m, b, MoveArtifact(m, b, v))
            && OriginalSaved(m, b, SavePath(b, v, sha), sha)
  {
  }

  /** Every correction puts every backed-up artifact into its own run or the legacy run, and leaves all others alone. */
  lemma CorrectedWhere(t: Tables, t': Tables, d: Digests, now: int, i: nat)
    requires Acceptable(t, d) && Corrected(t, t', d, now) && i < |t.current|
    ensures var m, m' := t.current[i], t'.current[i];
            if m.id in t.backup then
              && InItsRun(m, t.backup[m.id], m') && OnlyMoved(m, t.backup[m.id], m')
              && m.id in t'.backup && OriginalSaved(m, t.backup[m.id], t'.backup[m.id], d.sha)
            else m' == m
  {
    var m := t.current[i];
    assert Prepared(t, d, i) && RowCorrected(t, t', d, i);
    if BackedUp(t, m) {
      MovedWhere(m, t.backup[m.id], d.sha);
    }
  }

  /** Can stand between two slashes: no separator, no control character, and neither empty nor a dot segment. */
  ghost predicate SafeSegment(s: string) {
    && s != "" && s != "." && s != ".."
    && forall c | c in s :: c != '/' && c != '\\' && c >= ' ' && c != '\U{7F}'
  }

  lemma ComponentIsSafe(s: string)
    requires IsComponent(s)
    ensures SafeSegment(s)
  {
    assert Trim("") == "";
  }

  /**
   The points of its history at which an artifact is accepted, and no others. With
   no run of its own: still flat, or flat or moved with the flat path saved. With a
   run: in that run, or moved away by the old 081 with its path saved.
   */
  ghost predicate AtKnownPoint(m: Artifact, b: Backup) {
    var flat := "final/" + m.streamID + "/" + m.name;
    var legacy := RunPath(m.streamID, LegacyRun(m.streamID), m.name);
    if b.run.None? || b.run.value == "" then
      && m.runID == LegacyRun(m.streamID)
      && ((b.path.None? && m.path == flat) || (b.path == Some(flat) && (m.path == flat || m.path == legacy)))
    else
      var own := RunPath(m.streamID, b.run.value, m.name);
      && IsComponent(b.run.value)
      && (|| (m.runID == b.run.value && m.path == own && (b.path.None? || b.path == Some(own)))
          || (m.runID == LegacyRun(m.streamID) && m.path == legacy && b.path == Some(own)))
  }

  /** The saved path and its digest belong together. */
  ghost predicate EvidenceHolds(b: Backup, sha: string -> string) {
    (b.path.None? && b.pathPrint.None?) || (b.path.Some? && b.pathPrint == Some(sha(b.path.value)))
  }

  lemma AcceptedExactlyAtKnownPoints(m: Artifact, b: Backup, sha: string -> string)
    ensures Prepare(m, b, sha).Some? <==>
            IsStreamID(m.streamID) && IsComponent(m.name) && EvidenceHolds(b, sha) && AtKnownPoint(m, b)
  {
  }

  /** Taking the dashes out of a stream id leaves its five groups. */
  lemma {:induction false} UndashedAppend(a: string, b: string)
    ensures Undashed(a + b) == Undashed(a) + Undashed(b)
  {
    if a == "" {
      assert a + b == b;
    } else {
      UndashedAppend(a[1..], b);
      assert (a + b)[1..] == a[1..] + b && (a + b)[0] == a[0];
      var head := if a[0] == '-' then "" else [a[0]];
      Associate(head, Undashed(a[1..]), Undashed(b));
    }
  }

  lemma Associate(a: string, b: string, c: string)
    ensures a + (b + c) == a + b + c
  {
  }

  lemma {:induction false} UndashedKeeps(a: string)
    requires '-' !in a
    ensures Undashed(a) == a
  {
    if a != "" {
      UndashedKeeps(a[1..]);
    }
  }

  /** A group of hex digits followed by a dash. */
  lemma UndashedGroup(group: string, rest: string)
    requires '-' !in group
    ensures Undashed(group + "-" + rest) == group + Undashed(rest)
  {
    UndashedKeeps(group);
    UndashedAppend(group, "-" + rest);
    assert group + "-" + rest == group + ("-" + rest);
    assert ("-" + rest)[1..] == rest;
  }

  lemma Groups(s: string)
    requires IsStreamID(s)
    ensures s == s[..8] + "-" + (s[9..13] + "-" + (s[14..18] + "-" + (s[19..23] + "-" + s[24..])))
    ensures '-' !in s[..8] && '-' !in s[9..13] && '-' !in s[14..18] && '-' !in s[19..23] && '-' !in s[24..]
  {
    assert s[8] == s[13] == s[18] == s[23] == '-';
    assert forall i | 0 <= i < 36 && i !in {8, 13, 18, 23} :: IsHex(s[i]);
  }

  lemma UndashedIs(s: string)
    requires IsStreamID(s)
    ensures Undashed(s) == s[..8] + (s[9..13] + (s[14..18] + (s[19..23] + s[24..])))
  {
    Groups(s);
    var e := s[24..];
    var d := s[19..23] + "-" + e;
    var c := s[14..18] + "-" + d;
    var b := s[9..13] + "-" + c;
    UndashedKeeps(e);
    UndashedGroup(s[19..23], e);
    UndashedGroup(s[14..18], d);
    UndashedGroup(s[9..13], c);
    UndashedGroup(s[..8], b);
  }

  /** A character of a legacy run or of a stream id. */
  predicate IsPlain(c: char) {
    c == '-' || IsHex(c) || 'a' <= c <= 'z'
  }

  lemma PlainIsSafe(s: string)
    requires |s| > 2 && forall i | 0 <= i < |s| :: IsPlain(s[i])
    ensures SafeSegment(s)
  {
  }

  lemma {:induction false} UndashedIsPlain(s: string)
    requires forall i | 0 <= i < |s| :: IsPlain(s[i])
    ensures forall i | 0 <= i < |Undashed(s)| :: IsPlain(Undashed(s)[i])
  {
    if s != "" {
      UndashedIsPlain(s[1..]);
    }
  }

  lemma LegacyRunIsSafe(streamID: string)
    requires IsStreamID(streamID)
    ensures SafeSegment(LegacyRun(streamID)) && SafeSegment(streamID)
  {
    assert forall i | 0 <= i < 36 :: IsPlain(streamID[i]);
    PlainIsSafe(streamID);
    UndashedIsPlain(streamID);
    var head, tail := "legacy-", Lower(Undashed(streamID));
    assert forall i | 0 <= i < |tail| :: IsPlain(tail[i]);
    assert forall i | 0 <= i < |head| :: IsPlain(head[i]);
    PlainIsSafe(head + tail);
  }

  /** Every moved path is made of safe segments: it stays below its own run. */
  lemma MovedSegmentsAreSafe(m: Artifact, b: Backup, sha: string -> string)
    requires Prepare(m, b, sha).Some?
    ensures SafeSegment(m.streamID) && SafeSegment(m.name) && SafeSegment(Prepare(m, b, sha).value.run)
  {
    ComponentIsSafe(m.name);
    LegacyRunIsSafe(m.streamID);
    if b.run.GetOr("") != "" {
      ComponentIsSafe(b.run.value);
    }
  }

  /** Place i of a stream id, in the text without dashes. */
  function Place(i: nat): nat {
    if i < 8 then i else if i < 13 then i - 1 else if i < 18 then i - 2 else if i < 23 then i - 3 else i - 4
  }

  lemma UndashedAt(s: string, i: nat)
    requires IsStreamID(s) && i < 36 && i !in {8, 13, 18, 23}
    ensures |Undashed(s)| == 32 && Place(i) < 32 && Undashed(s)[Place(i)] == s[i]
  {
    UndashedIs(s);
  }

  /** A stream's legacy run is its own: two streams share one exactly when their ids differ in case only. */
  lemma LegacyRunIsUnique(a: string, b: string)
    requires IsStreamID(a) && IsStreamID(b)
    ensures LegacyRun(a) == LegacyRun(b) <==> Lower(a) == Lower(b)
  {
    if LegacyRun(a) == LegacyRun(b) {
      assert Lower(Undashed(a)) == LegacyRun(a)[7..] == LegacyRun(b)[7..] == Lower(Undashed(b));
      forall i | 0 <= i < 36
        ensures Lower(a)[i] == Lower(b)[i]
      {
        if i !in {8, 13, 18, 23} {
          UndashedAt(a, i);
          UndashedAt(b, i);
          assert Lower(Undashed(a))[Place(i)] == Lower(Undashed(b))[Place(i)];
        }
      }
      assert Lower(a) == Lower(b);
    } else if Lower(a) == Lower(b) {
      UndashedOfSame(a, b);
    }
  }

  lemma UndashedOfSame(a: string, b: string)
    requires IsStreamID(a) && IsStreamID(b) && Lower(a) == Lower(b)
    ensures Lower(Undashed(a)) == Lower(Undashed(b))
  {
    UndashedIs(a);
    UndashedIs(b);
    assert forall i | 0 <= i < 36 :: LowerChar(a[i]) == Lower(a)[i] == Lower(b)[i] == LowerChar(b[i]);
  }

  // ------------------------------------------------------- doing it again

  /** A moved row is prepared again, to the same place. */
  lemma PrepareAgain(m: Artifact, b: Backup, sha: string -> string)
    requires Prepare(m, b, sha).Some?
    ensures var v := Prepare(m, b, sha).value;
            && Prepare(MoveArtifact(m, b, v), SavePath(b, v, sha), sha) == Some(v)
            && MoveArtifact(MoveArtifact(m, b, v), SavePath(b, v, sha), v) == MoveArtifact(m, b, v)
            && SavePath(SavePath(b, v, sha), v, sha) == SavePath(b, v, sha)
  {
  }

  lemma RowAgain(t: Tables, t': Tables, d: Digests, now: int, i: nat)
    requires Acceptable(t, d) && Corrected(t, t', d, now) && i < |t.current|
    ensures var m, m' := t.current[i], t'.current[i];
            && m'.id == m.id
            && (BackedUp(t', m') <==> BackedUp(t, m))
            && Prepared(t, d, i) && Prepared(t', d, i)
            && Destination(t', m', d) == Destination(t, m, d)
            && RowCorrected(t', t', d, i)
  {
    assert Prepared(t, d, i) && RowCorrected(t, t', d, i);
    if BackedUp(t, t.current[i]) {
      PrepareAgain(t.current[i], t.backup[t.current[i].id], d.sha);
    }
  }

  lemma EntryAgain(t: Tables, t': Tables, d: Digests, now: int, id: string)
    requires Acceptable(t, d) && Corrected(t, t', d, now) && id in t'.backup
    ensures EntryValid(t', d, id)
  {
    assert EntryValid(t, d, id);
    var i := EntryHasRow(t, d, id);
    RowAgain(t, t', d, now, i);
    assert RowCorrected(t, t', d, i);
    assert t'.current[i].id == id;
  }

  /** What the correction leaves behind it accepts again. */
  lemma AcceptableAgain(t: Tables, t': Tables, d: Digests, now: int)
    requires Acceptable(t, d) && Corrected(t, t', d, now)
    ensures Acceptable(t', d)
  {
    forall id | id in t'.backup
      ensures EntryValid(t', d, id)
    {
      EntryAgain(t, t', d, now, id);
    }
    forall i | 0 <= i < |t'.current|
      ensures Prepared(t', d, i)
    {
      RowAgain(t, t', d, now, i);
    }
    forall i, j | 0 <= i < j < |t'.current|
      ensures !Collide(t', d, i, j)
    {
      RowAgain(t, t', d, now, i);
      RowAgain(t, t', d, now, j);
      assert !Collide(t, d, i, j);
    }
  }

  /** Doing the correction again changes nothing but the time of the gate. */
  lemma CorrectionIsIdempotent(t: Tables, t': Tables, d: Digests, now: int, later: int)
    requires Acceptable(t, d) && Corrected(t, t', d, now)
    ensures Acceptable(t', d)
    ensures Corrected(t', t'.(gate := Some(later)), d, later)
  {
    AcceptableAgain(t, t', d, now);
    var again := t'.(gate := Some(later));
    forall i | 0 <= i < |t'.current|
      ensures RowCorrected(t', again, d, i)
    {
      RowAgain(t, t', d, now, i);
    }
  }

  // ------------------------------------------- several histories, one outcome

  /** When an artifact will be said to have started. */
  function StartOf(m: Artifact, b: Backup): Option<int> {
    Coalesce(Coalesce(m.started, b.started), m.created)
  }

  /** Two backup entries of one artifact; a correction or the old 081 may have saved the path in one of them. */
  predicate SameEntry(b: Backup, c: Backup) {
    c == b.(path := c.path, pathPrint := c.pathPrint)
  }

  /** One artifact, whose row may be at two points of its history if the backup holds it. */
  ghost predicate SameRow(t: Tables, u: Tables, i: nat)
    requires i < |t.current| && |u.current| == |t.current| && u.backup.Keys == t.backup.Keys
  {
    var m, m' := t.current[i], u.current[i];
    if BackedUp(t, m) then
      && m' == m.(runID := m'.runID, path := m'.path, started := m'.started)
      && StartOf(m', u.backup[m.id]) == StartOf(m, t.backup[m.id])
    else m' == m
  }

  ghost predicate SameArtifacts(t: Tables, u: Tables) {
    && |t.current| == |u.current|
    && t.backup.Keys == u.backup.Keys
    && (forall id | id in t.backup :: SameEntry(t.backup[id], u.backup[id]))
    && forall i | 0 <= i < |t.current| :: SameRow(t, u, i)
  }

  /** Whichever accepted point of its history a row is at, it is prepared for the same move. */
  lemma OneMove(m: Artifact, m': Artifact, b: Backup, b': Backup, sha: string -> string)
    requires m' == m.(runID := m'.runID, path := m'.path, started := m'.started) && SameEntry(b, b')
    requires Prepare(m, b, sha).Some? && Prepare(m', b', sha).Some?
    ensures Prepare(m, b, sha) == Prepare(m', b', sha)
    ensures SavePath(b, Prepare(m, b, sha).value, sha) == SavePath(b', Prepare(m', b', sha).value, sha)
  {
  }

  lemma RowsConverge(t: Tables, u: Tables, u': Tables, d: Digests, now: int, i: nat)
    requires Acceptable(t, d) && Acceptable(u, d) && SameArtifacts(t, u) && Corrected(u, u', d, now) && i < |t.current|
    ensures Prepared(t, d, i) && RowCorrected(t, u', d, i)
  {
    assert SameRow(t, u, i) && RowCorrected(u, u', d, i) && Prepared(t, d, i) && Prepared(u, d, i);
    if BackedUp(t, t.current[i]) {
      var id := t.current[i].id;
      assert SameEntry(t.backup[id], u.backup[id]);
      OneMove(t.current[i], u.current[i], t.backup[id], u.backup[id], d.sha);
    }
  }

  /**
   Flat, preserved, old-081 and already corrected rows converge: two accepted
   tables of the same artifacts are corrected to one and the same table, whether
   or not their original paths have been saved yet.
   */
  lemma HistoriesConverge(t: Tables, u: Tables, t': Tables, u': Tables, d: Digests, now: int)
    requires Acceptable(t, d) && Acceptable(u, d) && SameArtifacts(t, u)
    requires Corrected(t, t', d, now) && Corrected(u, u', d, now)
    ensures t' == u'
  {
    forall i | 0 <= i < |t.current|
      ensures RowCorrected(t, u', d, i)
    {
      RowsConverge(t, u, u', d, now, i);
    }
    CorrectedIsUnique(t, t', u', d, now);
  }

  /** A table and what it is corrected to are two points in the history of the same artifacts. */
  lemma CorrectedIsSameArtifacts(t: Tables, t': Tables, d: Digests, now: int)
    requires Acceptable(t, d) && Corrected(t, t', d, now)
    ensures SameArtifacts(t, t')
  {
    forall i | 0 <= i < |t.current|
      ensures SameRow(t, t', i)
    {
      assert Prepared(t, d, i) && RowCorrected(t, t', d, i);
    }
    forall id | id in t.backup
      ensures SameEntry(t.backup[id], t'.backup[id])
    {
      var i := EntryHasRow(t, d, id);
      assert Prepared(t, d, i) && RowCorrected(t, t', d, i);
    }
  }

  // ------------------------------------------- what the old 081 did to a table

  /** Its update of a backup entry: save the path the row has now, unless one is saved. */
  function OldEntry(m: Artifact, b: Backup, sha: string -> string): Backup {
    b.(path := Some(b.path.GetOr(m.path)),
       pathPrint := Some(b.pathPrint.GetOr(sha(m.path))))
  }

  /** Its update of a row: every backed-up artifact goes to the legacy run, also one that had a run of its own. */
  function OldRow(m: Artifact): Artifact {
    m.(runID := LegacyRun(m.streamID), started := Coalesce(m.started, m.created),
       path := RunPath(m.streamID, LegacyRun(m.streamID), m.name))
  }

  /** The two updates as a relation between tables. */
  ghost predicate OldMigrated(t: Tables, u: Tables, d: Digests) {
    && |u.current| == |t.current| && u.backup.Keys == t.backup.Keys
    && (forall i | 0 <= i < |t.current| :: OldMigratedRow(t, u, d, i))
  }

  ghost predicate OldMigratedRow(t: Tables, u: Tables, d: Digests, i: nat)
    requires i < |t.current| && |u.current| == |t.current| && u.backup.Keys == t.backup.Keys
  {
    var m := t.current[i];
    && u.current[i] == (if BackedUp(t, m) then OldRow(m) else m)
    && (BackedUp(t, m) ==> u.backup[m.id] == OldEntry(m, t.backup[m.id], d.sha))
  }

  /** 080 backs up a start time only from a row that has one. */
  ghost predicate StartsKept(t: Tables) {
    forall i | 0 <= i < |t.current| && BackedUp(t, t.current[i]) ::
      t.current[i].started.Some? || t.backup[t.current[i].id].started.None?
  }

  /** An accepted row is still accepted after the old 081, for the same move. */
  lemma OldRowIsPrepared(m: Artifact, b: Backup, sha: string -> string)
    requires Prepare(m, b, sha).Some?
    ensures Prepare(OldRow(m), OldEntry(m, b, sha), sha) == Prepare(m, b, sha)
    ensures SameEntry(b, OldEntry(m, b, sha))
  {
  }

  lemma OldRowAgrees(t: Tables, u: Tables, d: Digests, i: nat)
    requires Acceptable(t, d) && StartsKept(t) && OldMigrated(t, u, d) && i < |t.current|
    ensures SameRow(t, u, i) && Prepared(t, d, i) && Prepared(u, d, i)
    ensures u.current[i].id == t.current[i].id
    ensures Destination(u, u.current[i], d) == Destination(t, t.current[i], d)
    ensures BackedUp(t, t.current[i]) ==> SameEntry(t.backup[t.current[i].id], u.backup[t.current[i].id])
  {
    assert OldMigratedRow(t, u, d, i) && Prepared(t, d, i);
    if BackedUp(t, t.current[i]) {
      OldRowIsPrepared(t.current[i], t.backup[t.current[i].id], d.sha);
    }
  }

  lemma OldEntryAgrees(t: Tables, u: Tables, d: Digests, id: string)
    requires Acceptable(t, d) && StartsKept(t) && OldMigrated(t, u, d) && id in t.backup
    ensures SameEntry(t.backup[id], u.backup[id]) && EntryValid(u, d, id)
  {
    assert EntryValid(t, d, id);
    var i := EntryHasRow(t, d, id);
    OldRowAgrees(t, u, d, i);
    assert u.current[i].id == id;
  }

  /** What the old 081 left of an accepted table is accepted, and is the same artifacts. */
  lemma OldMigrationIsAccepted(t: Tables, u: Tables, d: Digests)
    requires Acceptable(t, d) && StartsKept(t) && OldMigrated(t, u, d)
    ensures Acceptable(u, d) && SameArtifacts(t, u)
  {
    forall id | id in t.backup
      ensures SameEntry(t.backup[id], u.backup[id]) && EntryValid(u, d, id)
    {
      OldEntryAgrees(t, u, d, id);
    }
    forall i | 0 <= i < |t.current|
      ensures SameRow(t, u, i) && Prepared(u, d, i)
    {
      OldRowAgrees(t, u, d, i);
    }
    forall i, j | 0 <= i < j < |u.current|
      ensures !Collide(u, d, i, j)
    {
      OldRowAgrees(t, u, d, i);
      OldRowAgrees(t, u, d, j);
      assert !Collide(t, d, i, j);
    }
  }

  /** A table the old 081 has been over is corrected to what the table before it is corrected to. */
  lemma OldMigrationConverges(t: Tables, u: Tables, t': Tables, u': Tables, d: Digests, now: int)
    requires Acceptable(t, d) && StartsKept(t) && OldMigrated(t, u, d)
    requires Corrected(t, t', d, now)
    requires Acceptable(u, d) ==> Corrected(u, u', d, now)
    ensures Acceptable(u, d) && t' == u'
  {
    OldMigrationIsAccepted(t, u, d);
    HistoriesConverge(t, u, t', u', d, now);
  }

  // ------------------------------------------------------------- paths

  predicate NoSlash(s: string) {
    forall i | 0 <= i < |s| :: s[i] != '/'
  }

  lemma UndashedHasNoSlash(s: string)
    requires NoSlash(s)
    ensures NoSlash(Undashed(s))
  {
  }

  lemma LegacyRunIsComponent(streamID: string)
    requires IsStreamID(streamID)
    ensures NoSlash(LegacyRun(streamID)) && NoSlash(streamID)
  {
    assert NoSlash(streamID);
    UndashedHasNoSlash(streamID);
    var run := LegacyRun(streamID);
    assert forall i | 7 <= i < |run| :: run[i] == LowerChar(Undashed(streamID)[i - 7]);
  }

  /** Text before the first slash is determined by the whole. */
  lemma {:induction false} FirstPart(a: string, x: string, b: string, y: string)
    requires NoSlash(a) && NoSlash(b)
    requires a + "/" + x == b + "/" + y
    ensures a == b && x == y
  {
    var s := a + "/" + x;
    assert forall k | 0 <= k < |a| :: s[k] == a[k];
    assert forall k | 0 <= k < |b| :: s[k] == b[k];
    assert s[|a|] == '/' && s[|b|] == '/';
    assert a == s[..|a|] && b == s[..|b|];
    assert x == s[|a| + 1..] && y == s[|b| + 1..];
  }

  /** A run path names its stream, run and file: no two of them look alike. */
  lemma RunPathIsUnique(s1: string, r1: string, n1: string, s2: string, r2: string, n2: string)
    requires NoSlash(s1) && NoSlash(r1) && NoSlash(s2) && NoSlash(r2)
    requires RunPath(s1, r1, n1) == RunPath(s2, r2, n2)
    ensures s1 == s2 && r1 == r2 && n1 == n2
  {
    var x, y := r1 + "/" + n1, r2 + "/" + n2;
    assert RunPath(s1, r1, n1) == "final/" + (s1 + "/" + x);
    assert RunPath(s2, r2, n2) == "final/" + (s2 + "/" + y);
    assert s1 + "/" + x == RunPath(s1, r1, n1)[6..] == s2 + "/" + y;
    FirstPart(s1, x, s2, y);
    FirstPart(r1, n1, r2, n2);
  }

  lemma FlatIsNotRunPath(s1: string, n1: string, s2: string, r2: string, n2: string)
    requires NoSlash(s1) && NoSlash(n1) && NoSlash(s2)
    ensures FlatPath(s1, n1) != RunPath(s2, r2, n2)
  {
    var y := r2 + "/" + n2;
    assert y[|r2|] == '/';
    assert FlatPath(s1, n1)[6..] == s1 + "/" + n1;
    assert RunPath(s2, r2, n2)[6..] == s2 + "/" + y;
    if FlatPath(s1, n1) == RunPath(s2, r2, n2) {
      FirstPart(s1, n1, s2, y);
    }
  }

  /**
   Two backed-up rows are moved to the same path only if they are the same
   stream, run and file; and a moved row never stays on a flat path.
   */
  lemma MovedPathsAreUnambiguous(m: Artifact, b: Backup, m': Artifact, b': Backup, sha: string -> string)
    requires Prepare(m, b, sha).Some? && Prepare(m', b', sha).Some?
    ensures var v, v' := Prepare(m, b, sha).value, Prepare(m', b', sha).value;
            && (v.path == v'.path <==> m.streamID == m'.streamID && v.run == v'.run && m.name == m'.name)
            && v.path == RunPath(m.streamID, v.run, m.name)
            && v.path != FlatPath(m'.streamID, m'.name)
  {
    var v, v' := Prepare(m, b, sha).value, Prepare(m', b', sha).value;
    LegacyRunIsComponent(m.streamID);
    LegacyRunIsComponent(m'.streamID);
    if v.path == v'.path {
      RunPathIsUnique(m.streamID, v.run, m.name, m'.streamID, v'.run, m'.name);
    }
    FlatIsNotRunPath(m'.streamID, m'.name, m.streamID, v.run, m.name);
  }

  // ------------------------------------------------------- the transaction

  /** UPDATE stream_artifacts ... WHERE id = ?. */
  function UpdateRow(current: seq<Artifact>, id: string, b: Backup, v: Move): (r: seq<Artifact>)
    ensures |r| == |current|
  {
    seq(|current|, i requires 0 <= i < |current| => if current[i].id == id then MoveArtifact(current[i], b, v) else current[i])
  }

  /** A planned move, and the place of its row. */
  datatype Mapping = Mapping(at: nat, row: Artifact, plan: Move)

  ghost predicate PlanOk(t: Tables, d: Digests, n: nat, p: Mapping) {
    && p.at < n <= |t.current|
    && p.row == t.current[p.at]
    && BackedUp(t, p.row)
    && Prepare(p.row, t.backup[p.row.id], d.sha) == Some(p.plan)
  }

  ghost predicate HasPlan(mappings: seq<Mapping>, n: nat, i: nat)
    requires n <= |mappings|
  {
    exists k | 0 <= k < n :: mappings[k].at == i
  }

  /** The plans for the first n rows, one for each row that the backup holds. */
  ghost predicate Planned(t: Tables, d: Digests, n: nat, mappings: seq<Mapping>)
    requires n <= |t.current|
  {
    && (forall k | 0 <= k < |mappings| :: PlanOk(t, d, n, mappings[k]))
    && (forall i | 0 <= i < n && BackedUp(t, t.current[i]) :: HasPlan(mappings, |mappings|, i))
  }

  lemma PlanGrows(t: Tables, d: Digests, n: nat, mappings: seq<Mapping>, more: seq<Mapping>)
    requires n < |t.current| && Planned(t, d, n, mappings) && Prepared(t, d, n)
    requires if BackedUp(t, t.current[n])
             then more == mappings + [Mapping(n, t.current[n], Prepare(t.current[n], t.backup[t.current[n].id], d.sha).value)]
             else more == mappings
    ensures Planned(t, d, n + 1, more)
  {
    forall k | 0 <= k < |more|
      ensures PlanOk(t, d, n + 1, more[k])
    {
      assert k < |mappings| ==> PlanOk(t, d, n, mappings[k]);
    }
    forall i | 0 <= i < n + 1 && BackedUp(t, t.current[i])
      ensures HasPlan(more, |more|, i)
    {
      if i < n {
        assert HasPlan(mappings, |mappings|, i);
        var k :| 0 <= k < |mappings| && mappings[k].at == i;
        assert more[k].at == i;
      } else {
        assert more[|mappings|].at == i;
      }
    }
  }

  /** Row i, known to be prepared, ends up at the folded destination `key`. */
  ghost predicate EndsAt(t: Tables, d: Digests, i: nat, key: string) {
    i < |t.current| && Prepared(t, d, i) && d.fold(Destination(t, t.current[i], d)) == key
  }

  /** Some row of the first n ends up at `key`; when `moved`, one that the correction moves. */
  ghost predicate Occupied(t: Tables, d: Digests, n: nat, key: string, moved: bool) {
    exists i | 0 <= i < n :: EndsAt(t, d, i, key) && (moved ==> BackedUp(t, t.current[i]))
  }

  /** The destinations map: a key for every destination, true when some row is moved there. */
  ghost predicate Tracks(t: Tables, d: Digests, n: nat, destinations: map<string, bool>) {
    && (forall i, key | 0 <= i < n && EndsAt(t, d, i, key) ::
          key in destinations && (BackedUp(t, t.current[i]) ==> destinations[key]))
    && (forall key | key in destinations :: Occupied(t, d, n, key, destinations[key]))
  }

  lemma OccupiedCollides(t: Tables, d: Digests, n: nat, destinations: map<string, bool>, key: string)
    requires n < |t.current| && AllPrepared(t, d, n + 1) && Tracks(t, d, n, destinations)
    requires EndsAt(t, d, n, key) && key in destinations && (destinations[key] || BackedUp(t, t.current[n]))
    ensures !Acceptable(t, d)
  {
    assert Occupied(t, d, n, key, destinations[key]);
    var i :| 0 <= i < n && EndsAt(t, d, i, key) && (destinations[key] ==> BackedUp(t, t.current[i]));
    assert Collide(t, d, i, n);
  }

  lemma FreeKeepsApart(t: Tables, d: Digests, n: nat, destinations: map<string, bool>, key: string)
    requires n < |t.current| && AllPrepared(t, d, n + 1) && Tracks(t, d, n, destinations) && NoCollision(t, d, n)
    requires EndsAt(t, d, n, key) && !(key in destinations && (destinations[key] || BackedUp(t, t.current[n])))
    ensures NoCollision(t, d, n + 1)
  {
    forall i, j | 0 <= i < j < n + 1
      ensures !Collide(t, d, i, j)
    {
      if j < n {
        assert !Collide(t, d, i, j);
      } else if Collide(t, d, i, n) {
        assert EndsAt(t, d, i, key);
      }
    }
  }

  lemma TracksNext(t: Tables, d: Digests, n: nat, destinations: map<string, bool>, key: string, more: map<string, bool>)
    requires n < |t.current| && Tracks(t, d, n, destinations) && EndsAt(t, d, n, key)
    requires more == destinations[key := (key in destinations && destinations[key]) || BackedUp(t, t.current[n])]
    ensures Tracks(t, d, n + 1, more)
  {
    var next := n + 1;
    forall k | k in more
      ensures Occupied(t, d, next, k, more[k])
    {
      if k in destinations {
        assert Occupied(t, d, n, k, destinations[k]);
      }
    }
    forall i, k | 0 <= i < next && EndsAt(t, d, i, k)
      ensures k in more && (BackedUp(t, t.current[i]) ==> more[k])
    {
    }
  }

  /** Row i after the first n plans were carried out. */
  ghost predicate RowDone(t: Tables, d: Digests, mappings: seq<Mapping>, n: nat, now: Tables, i: nat)
    requires n <= |mappings| && i < |t.current| && |now.current| == |t.current| && Prepared(t, d, i)
  {
    var m := t.current[i];
    if HasPlan(mappings, n, i) then RowCorrected(t, now, d, i)
    else now.current[i] == m && (BackedUp(t, m) ==> m.id in now.backup && now.backup[m.id] == t.backup[m.id])
  }

  /** The two updates of one plan; the saved path is written only while it is null. */
  function CarriedOut(now: Tables, m: Mapping, b: Backup, sha: string -> string): (r: Tables)
    requires m.row.id in now.backup
    ensures |r.current| == |now.current| && r.backup.Keys == now.backup.Keys
  {
    var saved := now.backup[m.row.id];
    var backup :=
      if b.path.None? && saved.path.None?
      then now.backup[m.row.id := saved.(path := Some(m.plan.original), pathPrint := Some(sha(m.plan.original)))]
      else now.backup;
    now.(current := UpdateRow(now.current, m.row.id, b, m.plan), backup := backup)
  }

  lemma CarriedOutRow(t: Tables, d: Digests, mappings: seq<Mapping>, n: nat, now: Tables, i: nat)
    requires Keyed(t.current) && n < |mappings| && PlanOk(t, d, |t.current|, mappings[n])
    requires i < |t.current| && |now.current| == |t.current| && now.backup.Keys == t.backup.Keys
    requires Prepared(t, d, i) && RowDone(t, d, mappings, n, now, i)
    ensures RowDone(t, d, mappings, n + 1, CarriedOut(now, mappings[n], t.backup[mappings[n].row.id], d.sha), i)
  {
    var m := mappings[n];
    assert HasPlan(mappings, n + 1, i) <==> HasPlan(mappings, n, i) || m.at == i;
    assert m.row.id == t.current[i].id <==> m.at == i;
    assert now.current[i].id == t.current[i].id;
  }

  ghost predicate Done(t: Tables, d: Digests, mappings: seq<Mapping>, n: nat, now: Tables)
    requires n <= |mappings| && AllPrepared(t, d, |t.current|)
  {
    && |now.current| == |t.current| && now.backup.Keys == t.backup.Keys
    && forall i | 0 <= i < |t.current| :: RowDone(t, d, mappings, n, now, i)
  }

  lemma DoneNext(t: Tables, d: Digests, mappings: seq<Mapping>, n: nat, now: Tables)
    requires Keyed(t.current) && n < |mappings| && PlanOk(t, d, |t.current|, mappings[n])
    requires AllPrepared(t, d, |t.current|) && Done(t, d, mappings, n, now)
    ensures Done(t, d, mappings, n + 1, CarriedOut(now, mappings[n], t.backup[mappings[n].row.id], d.sha))
  {
    var next, after := n + 1, CarriedOut(now, mappings[n], t.backup[mappings[n].row.id], d.sha);
    forall i | 0 <= i < |t.current|
      ensures RowDone(t, d, mappings, next, after, i)
    {
      assert RowDone(t, d, mappings, n, now, i);
      CarriedOutRow(t, d, mappings, n, now, i);
    }
  }

  /** Before the first plan nothing is done. */
  lemma NothingDone(t: Tables, d: Digests, mappings: seq<Mapping>)
    requires AllPrepared(t, d, |t.current|)
    ensures Done(t, d, mappings, 0, t)
  {
    forall i | 0 <= i < |t.current|
      ensures RowDone(t, d, mappings, 0, t, i)
    {
      assert Prepared(t, d, i);
    }
  }

  lemma DoneIsCorrected(t: Tables, d: Digests, mappings: seq<Mapping>, after: Tables, now: int)
    requires Acceptable(t, d) && Planned(t, d, |t.current|, mappings)
    requires Done(t, d, mappings, |mappings|, after)
    ensures Corrected(t, after.(gate := Some(now)), d, now)
  {
    var committed := after.(gate := Some(now));
    forall i | 0 <= i < |t.current|
      ensures RowCorrected(t, committed, d, i)
    {
      assert RowDone(t, d, mappings, |mappings|, after, i);
    }
  }

  /** What the checking pass knows after n rows. */
  ghost predicate Checked(t: Tables, d: Digests, n: nat, mappings: seq<Mapping>, destinations: map<string, bool>) {
    && n <= |t.current|
    && AllPrepared(t, d, n) && NoCollision(t, d, n)
    && Planned(t, d, n, mappings)
    && Tracks(t, d, n, destinations)
  }

  lemma CheckedNext(t: Tables, d: Digests, n: nat, mappings: seq<Mapping>, destinations: map<string, bool>,
                    more: seq<Mapping>, key: string)
    requires n < |t.current| && Checked(t, d, n, mappings, destinations) && EndsAt(t, d, n, key)
    requires if BackedUp(t, t.current[n])
             then more == mappings + [Mapping(n, t.current[n], Prepare(t.current[n], t.backup[t.current[n].id], d.sha).value)]
             else more == mappings
    ensures var previous := key in destinations && destinations[key];
            if key in destinations && (previous || BackedUp(t, t.current[n])) then !Acceptable(t, d)
            else Checked(t, d, n + 1, more, destinations[key := previous || BackedUp(t, t.current[n])])
  {
    var previous := key in destinations && destinations[key];
    assert AllPrepared(t, d, n + 1);
    if key in destinations && (previous || BackedUp(t, t.current[n])) {
      OccupiedCollides(t, d, n, destinations, key);
    } else {
      PlanGrows(t, d, n, mappings, more);
      FreeKeepsApart(t, d, n, destinations, key);
      TracksNext(t, d, n, destinations, key, destinations[key := previous || BackedUp(t, t.current[n])]);
    }
  }

  /** The tables, and the transaction of one connection over them. */
  class ArchiveDatabase {
    var tables: Tables
    const d: Digests

    constructor (tables: Tables, d: Digests)
      ensures this.tables == tables && this.d == d
    {
      this.tables := tables;
      this.d := d;
    }

    /** The checking pass over all rows, before anything changes. */
    method PlanMapping() returns (error: Option<Error>, mappings: seq<Mapping>)
      requires BackupValid(tables, d)
      ensures error.None? <==> Acceptable(tables, d)
      ensures error.None? ==> Planned(tables, d, |tables.current|, mappings)
      ensures error != Some(BackupMismatch)
      ensures error.Some? && error.value.Conflict? ==>
                exists i | 0 <= i < |tables.current| :: tables.current[i].id == error.value.id && !Prepared(tables, d, i)
    {
      var t := tables;
      mappings := [];
      var destinations: map<string, bool> := map[];
      var n := 0;
      while n < |t.current|
        invariant 0 <= n <= |t.current|
        invariant Checked(t, d, n, mappings, destinations)
      {
        var backed := t.current[n].id in t.backup;
        var ok, more, target := PlanRow(t, n, mappings);
        if !ok {
          return Some(Conflict(t.current[n].id)), mappings;
        }
        var key := d.fold(target);
        CheckedNext(t, d, n, mappings, destinations, more, key);
        mappings := more;
        var previousMigration := key in destinations && destinations[key];
        if key in destinations && (previousMigration || backed) {
          return Some(Collision), mappings;
        }
        destinations := destinations[key := previousMigration || backed];
        n := n + 1;
      }
      return None, mappings;
    }

    /** Row n: its plan, if the backup holds it, and its destination. */
    method PlanRow(t: Tables, n: nat, mappings: seq<Mapping>) returns (ok: bool, more: seq<Mapping>, target: string)
      requires n < |t.current|
      ensures ok == Prepared(t, d, n)
      ensures ok ==> EndsAt(t, d, n, d.fold(target))
      ensures ok && BackedUp(t, t.current[n]) ==>
                more == mappings + [Mapping(n, t.current[n], Prepare(t.current[n], t.backup[t.current[n].id], d.sha).value)]
      ensures ok && !BackedUp(t, t.current[n]) ==> more == mappings
    {
      var m := t.current[n];
      ok, more, target := true, mappings, m.path;
      if m.id in t.backup {
        var plan := Prepare(m, t.backup[m.id], d.sha);
        if plan.None? {
          return false, mappings, m.path;
        }
        more := mappings + [Mapping(n, m, plan.value)];
        target := plan.value.path;
      }
    }

    /** The updating pass, on the transaction's own view of the tables. */
    method ApplyMapping(mappings: seq<Mapping>, now: int) returns (after: Tables)
      requires Keyed(tables.current) && Acceptable(tables, d) && Planned(tables, d, |tables.current|, mappings)
      ensures Corrected(tables, after, d, now)
    {
      after := tables;
      var n := 0;
      NothingDone(tables, d, mappings);
      while n < |mappings|
        invariant 0 <= n <= |mappings|
        invariant Done(tables, d, mappings, n, after)
      {
        var m := mappings[n];
        assert PlanOk(tables, d, |tables.current|, m);
        DoneNext(tables, d, mappings, n, after);
        after := CarriedOut(after, m, tables.backup[m.row.id], d.sha);
        n := n + 1;
      }
      DoneIsCorrected(tables, d, mappings, after, now);
      after := after.(gate := Some(now));
    }

    /** All or nothing: the tables are corrected exactly when the whole mapping is acceptable. */
    method CorrectArchiveMapping(now: int) returns (error: Option<Error>)
      requires Keyed(tables.current)
      modifies this
      ensures error.None? <==> Acceptable(old(tables), d)
      ensures error.None? ==> Corrected(old(tables), tables, d, now)
      ensures error.Some? ==> tables == old(tables)
      ensures error == Some(BackupMismatch) <==> !BackupValid(old(tables), d)
      ensures error.Some? && error.value.Conflict? ==>
                exists i | 0 <= i < |tables.current| :: tables.current[i].id == error.value.id && !Prepared(tables, d, i)
    {
      if !BackupValid(tables, d) {
        return Some(BackupMismatch);
      }
      var mappings;
      error, mappings := PlanMapping();
      if error.Some? {
        return;
      }
      tables := ApplyMapping(mappings, now);
    }
  }
}
