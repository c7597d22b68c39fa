/**
 What the rewriting of migration 081 guarantees about the texts that are executed:
 none of them is a statement of the old archive move, and none still reads the
 columns that the migration removes.
 */
module EolTexts {
  import opened Text
  import opened EolStatements

  // ------------------------------------------------------------- replacing and heads

  /** Wherever the text has the first letter, it goes on with another letter than the second. */
  predicate Apart(head: string, first: char, second: char) {
    forall i | 0 <= i < |head| && head[i] == first :: i + 1 < |head| && head[i + 1] != second
  }

  lemma ApartRest(head: string, first: char, second: char)
    requires head != "" && Apart(head, first, second)
    ensures Apart(head[1..], first, second)
  {
  }

  lemma ApartAppend(a: string, b: string, first: char, second: char)
    requires Apart(a, first, second) && Apart(b, first, second)
    ensures Apart(a + b, first, second)
  {
  }

  lemma NotBoth(head: string, s: string, first: char, second: char)
    requires head != "" && Apart(head, first, second) && |s| >= 2 && s[0] == first && s[1] == second
    ensures !(head <= s)
  {
  }

  /** A replacement that a head is apart from leaves a leading head as it is. */
  lemma {:induction false} ReplaceAllKeepsApart(s: string, from: string, to: string, head: string)
    requires |from| >= 2 && |to| >= 2 && Apart(head, from[0], from[1]) && Apart(head, to[0], to[1])
    ensures head <= ReplaceAll(s, from, to) <==> head <= s
    decreases |s|
  {
    if s != "" && head != "" {
      if from <= s {
        NotBoth(head, s, from[0], from[1]);
        NotBoth(head, ReplaceAll(s, from, to), to[0], to[1]);
      } else {
        ApartRest(head, from[0], from[1]);
        ApartRest(head, to[0], to[1]);
        ReplaceAllKeepsApart(s[1..], from, to, head[1..]);
        PrefixSteps(head, s);
        PrefixSteps(head, ReplaceAll(s, from, to));
      }
    }
  }

  /** What comes before a mark still has the head that is apart from it. */
  lemma {:induction false} BeforeKeepsApart(s: string, mark: string, head: string)
    requires |mark| >= 2 && Apart(head, mark[0], mark[1]) && head <= s
    ensures head <= Before(s, mark)
    decreases |s|
  {
    if head != "" {
      if mark <= s {
        NotBoth(head, s, mark[0], mark[1]);
      } else {
        ApartRest(head, mark[0], mark[1]);
        assert head[1..] <= s[1..];
        BeforeKeepsApart(s[1..], mark, head[1..]);
        PrefixSteps(head, Before(s, mark));
      }
    }
  }

  // --------------------------------------------------- statements of the archive move

  /** The beginnings of the five statements that the checked mapping replaces. */
  const ArchiveHeads: seq<string> := [
    "ALTER TABLE" + " v2_migration_archive_artifacts_backup",
    "CREATE TABLE IF NOT EXISTS" + " v2_migration_bundle8b_artifact_gate",
    "INSERT INTO" + " v2_migration_bundle8b_artifact_gate",
    "UPDATE" + " v2_migration_archive_artifacts_backup",
    "UPDATE stream_artifacts"]

  ghost predicate IsArchiveStatement(text: string) {
    exists i | 0 <= i < |ArchiveHeads| :: ArchiveHeads[i] <= text
  }

  /** Exactly these are left out, whatever comments stand before them. */
  lemma SkippedExactlyArchive(original: string)
    ensures PlanOf(original).Skip? <==> IsArchiveStatement(TrimComments(original))
  {
    ReplacedIsArchive(TrimComments(original));
  }

  lemma ReplacedIsArchive(text: string)
    ensures Replaced(text) <==> IsArchiveStatement(text)
  {
    var h := ArchiveHeads;
    assert Replaced(text) <==> h[0] <= text || h[1] <= text || h[2] <= text || h[3] <= text || h[4] <= text;
  }

  lemma NoLetter(piece: string, first: char, second: char)
    requires first !in piece
    ensures Apart(piece, first, second)
  {
  }

  predicate NoFJ(s: string) {
    forall i | 0 <= i < |s| :: s[i] != 'F' && s[i] != 'J'
  }

  lemma PiecesHaveNoFJ()
    ensures NoFJ("ALTER TABLE") && NoFJ("INSERT INTO") && NoFJ("UPDATE") && NoFJ("UPDATE stream_artifacts")
  {
  }

  lemma CreateHasNoJ()
    ensures 'J' !in "CREATE TABLE IF NOT EXISTS"
  {
    var head := "CREATE TABLE IF NOT EXISTS";
    assert forall i | 0 <= i < |head| :: head[i] != 'J';
  }

  lemma BackupHasNoFJ()
    ensures NoFJ(" v2_migration_archive_artifacts_backup")
  {
  }

  lemma ArtifactGateHasNoFJ()
    ensures NoFJ(" v2_migration_bundle8b_artifact_gate")
  {
  }

  lemma CreateIsApart()
    ensures Apart("CREATE TABLE IF NOT EXISTS", 'F', 'R')
  {
    var head := "CREATE TABLE IF NOT EXISTS";
    assert forall i | 0 <= i < |head| && head[i] == 'F' :: i == 14;
    assert head[15] == ' ';
  }

  lemma PairIsApart(a: string, b: string)
    requires Apart(a, 'F', 'R') && Apart(a, 'J', 'O') && NoFJ(b)
    ensures Apart(a + b, 'F', 'R') && Apart(a + b, 'J', 'O')
  {
    NoLetter(b, 'F', 'R');
    NoLetter(b, 'J', 'O');
    ApartAppend(a, b, 'F', 'R');
    ApartAppend(a, b, 'J', 'O');
  }

  lemma HeadsAreApart(i: nat)
    requires i < |ArchiveHeads|
    ensures Apart(ArchiveHeads[i], 'F', 'R') && Apart(ArchiveHeads[i], 'J', 'O')
  {
    PiecesHaveNoFJ();
    CreateHasNoJ();
    CreateIsApart();
    BackupHasNoFJ();
    ArtifactGateHasNoFJ();
    PairIsApart("ALTER TABLE", " v2_migration_archive_artifacts_backup");
    PairIsApart("CREATE TABLE IF NOT EXISTS", " v2_migration_bundle8b_artifact_gate");
    PairIsApart("INSERT INTO", " v2_migration_bundle8b_artifact_gate");
    PairIsApart("UPDATE", " v2_migration_archive_artifacts_backup");
  }

  /** Reading from the snapshots does not change how a statement begins. */
  lemma SnapshotKeepsHead(stmt: string, i: nat)
    requires i < |ArchiveHeads|
    ensures ArchiveHeads[i] <= FromSnapshot(stmt) <==> ArchiveHeads[i] <= stmt
  {
    HeadsAreApart(i);
    var a, b := "FROM stream_settings AS legacy", "FROM v2_migration_bundle8b" + "_discord_source AS legacy";
    var c, d := "JOIN stream_settings AS legacy", "JOIN v2_migration_bundle8b" + "_discord_source AS legacy";
    assert a[0] == b[0] == 'F' && a[1] == b[1] == 'R' && c[0] == d[0] == 'J' && c[1] == d[1] == 'O';
    ReplaceAllKeepsApart(stmt, a, b, ArchiveHeads[i]);
    ReplaceAllKeepsApart(ReplaceAll(stmt, a, b), c, d, ArchiveHeads[i]);
  }

  /** Texts that differ at a place do not begin alike. */
  lemma DifferAt(head: string, text: string, i: nat)
    requires i < |head| && i < |text| && head[i] != text[i]
    ensures !(head <= text)
  {
  }

  lemma FirstLetters()
    ensures ArchiveHeads[0][0] == 'A' && ArchiveHeads[1][0] == 'C' && ArchiveHeads[3][0] == 'U' && ArchiveHeads[4][0] == 'U'
  {
  }

  lemma GateLetters()
    ensures |GateInsert| > 34 && GateInsert[0] == 'I' && GateInsert[34] == 'g'
    ensures |ArchiveHeads[2]| > 34 && ArchiveHeads[2][34] == 'a' && ArchiveHeads[2][8] == 'N'
  {
    var gate := "INSERT INTO v2_migration_bundle8b_gate";
    assert |gate| == 38 && gate[0] == 'I' && gate[34] == 'g';
    var table := " v2_migration_bundle8b_artifact_gate";
    assert |table| == 36 && table[23] == 'a';
    assert "INSERT INTO"[8] == 'N';
  }

  lemma GateIsNotArchive()
    ensures !IsArchiveStatement(GateInsert)
  {
    FirstLetters();
    GateLetters();
    DifferAt(ArchiveHeads[0], GateInsert, 0);
    DifferAt(ArchiveHeads[1], GateInsert, 0);
    DifferAt(ArchiveHeads[2], GateInsert, 34);
    DifferAt(ArchiveHeads[3], GateInsert, 0);
    DifferAt(ArchiveHeads[4], GateInsert, 0);
  }

  lemma InsertLetters()
    ensures Apart("INSERT INTO ", 'O', 'N') && Apart("INSERT IGNORE INTO", 'F', 'R')
  {
    var a, b := "INSERT INTO ", "INSERT IGNORE INTO";
    assert forall i | 0 <= i < |a| && a[i] == 'O' :: i == 10;
    assert a[11] == ' ';
    assert 'F' !in b;
  }

  /** The export is executed as an insert that ignores what is there. */
  lemma ExportIgnores(stmt: string)
    requires "INSERT INTO" + " v2_migration_legacy_agent_export" <= stmt
    ensures "INSERT IGNORE INTO" <= IgnoringExport(stmt)
  {
    InsertLetters();
    var mark, insert, ignore := "ON DUPLICATE KEY UPDATE", "INSERT INTO", "INSERT IGNORE INTO";
    var from, to := "FROM system_update_execution_hosts", "FROM v2_migration_bundle8b_host_source";
    assert mark[0] == 'O' && mark[1] == 'N' && from[0] == to[0] == 'F' && from[1] == to[1] == 'R';
    assert "INSERT INTO " <= stmt by {
      assert "INSERT INTO " == "INSERT INTO" + " ";
      assert " " <= " v2_migration_legacy_agent_export";
      assert stmt[..12] == "INSERT INTO" + " ";
    }
    BeforeKeepsApart(stmt, mark, "INSERT INTO ");
    var cut := Before(stmt, mark);
    assert insert <= cut by {
      assert cut[..11] == "INSERT INTO "[..11] == insert;
    }
    var ignoring := ReplaceFirst(cut, insert, ignore);
    assert ignore <= ignoring;
    ReplaceAllKeepsApart(ignoring, from, to, ignore);
  }

  lemma ExportIsNotArchive(text: string)
    requires "INSERT IGNORE INTO" <= text
    ensures !IsArchiveStatement(text)
  {
    FirstLetters();
    GateLetters();
    var ignore := "INSERT IGNORE INTO";
    assert ignore[0] == 'I' && ignore[8] == 'G';
    assert text[0] == 'I' && text[8] == 'G';
    DifferAt(ArchiveHeads[0], text, 0);
    DifferAt(ArchiveHeads[1], text, 0);
    DifferAt(ArchiveHeads[2], text, 8);
    DifferAt(ArchiveHeads[3], text, 0);
    DifferAt(ArchiveHeads[4], text, 0);
  }

  lemma SnapshotIsNotArchive(stmt: string)
    requires !IsArchiveStatement(stmt)
    ensures !IsArchiveStatement(FromSnapshot(stmt))
  {
    forall i | 0 <= i < |ArchiveHeads|
      ensures !(ArchiveHeads[i] <= FromSnapshot(stmt))
    {
      SnapshotKeepsHead(stmt, i);
    }
  }

  /** No text that is executed is a statement of the archive move. */
  lemma ExecutedIsNotArchive(original: string)
    requires PlanOf(original).Do?
    ensures !IsArchiveStatement(PlanOf(original).text)
  {
    var stmt := TrimComments(original);
    SkippedExactlyArchive(original);
    if IsGate(stmt) {
      GateIsNotArchive();
      SnapshotIsNotArchive(GateInsert);
    } else if "INSERT INTO" + " v2_migration_legacy_agent_export" <= stmt {
      ExportIgnores(stmt);
      ExportIsNotArchive(IgnoringExport(stmt));
      SnapshotIsNotArchive(IgnoringExport(stmt));
    } else {
      SnapshotIsNotArchive(stmt);
    }
  }

  const GateHead: string := "INSERT INTO v2_migration_bundle8b_gate"

  lemma GateHeadIsApart()
    ensures Apart(GateHead, 'F', 'R') && Apart(GateHead, 'J', 'O') && GateHead[8] == 'N'
  {
    assert NoFJ(GateHead);
    NoLetter(GateHead, 'F', 'R');
    NoLetter(GateHead, 'J', 'O');
  }

  lemma SnapshotKeepsGateHead(stmt: string)
    ensures GateHead <= FromSnapshot(stmt) <==> GateHead <= stmt
  {
    GateHeadIsApart();
    var a, b := "FROM stream_settings AS legacy", "FROM v2_migration_bundle8b" + "_discord_source AS legacy";
    var c, d := "JOIN stream_settings AS legacy", "JOIN v2_migration_bundle8b" + "_discord_source AS legacy";
    assert a[0] == b[0] == 'F' && a[1] == b[1] == 'R' && c[0] == d[0] == 'J' && c[1] == d[1] == 'O';
    ReplaceAllKeepsApart(stmt, a, b, GateHead);
    ReplaceAllKeepsApart(ReplaceAll(stmt, a, b), c, d, GateHead);
  }

  lemma ExportIsNoGate(text: string)
    requires "INSERT IGNORE INTO" <= text
    ensures !(GateHead <= text)
  {
    GateHeadIsApart();
    var head := "INSERT IGNORE INTO";
    assert head[8] == 'G' && text[8] == head[8];
    DifferAt(GateHead, text, 8);
  }

  lemma ExportOpensNoGate(stmt: string)
    requires "INSERT INTO" + " v2_migration_legacy_agent_export" <= stmt
    ensures !(GateHead <= FromSnapshot(IgnoringExport(stmt)))
  {
    ExportIgnores(stmt);
    ExportIsNoGate(IgnoringExport(stmt));
    SnapshotKeepsGateHead(IgnoringExport(stmt));
  }

  /** No executed text opens the final gate without the validation and the earlier gates before it. */
  lemma GateIsAlwaysGated(original: string)
    requires PlanOf(original).Do? && GateHead <= PlanOf(original).text
    ensures PlanOf(original).gated
  {
    var stmt := TrimComments(original);
    if !IsGate(stmt) {
      SnapshotKeepsGateHead(stmt);
      if "INSERT INTO" + " v2_migration_legacy_agent_export" <= stmt {
        ExportOpensNoGate(stmt);
      }
    }
  }

  // ------------------------------------------------- what is not read any more

  /** The text contains the pattern. */
  predicate Occurs(p: string, s: string) {
    p <= s || (s != "" && Occurs(p, s[1..]))
  }

  /** A block that can neither be the beginning of the pattern nor hold one. */
  predicate Hides(block: string, p: string) {
    && block != "" && p != ""
    && (forall i | 1 <= i < |block| :: block[i] != p[0])
    && (block[0] == p[0] ==> exists j | 0 <= j < |block| && j < |p| :: block[j] != p[j])
  }

  lemma {:induction false} SkipsBlock(block: string, rest: string, p: string)
    requires p != "" && (forall i | 0 <= i < |block| :: block[i] != p[0]) && !Occurs(p, rest)
    ensures !Occurs(p, block + rest)
  {
    if block == "" {
      assert block + rest == rest;
    } else {
      SkipsBlock(block[1..], rest, p);
      assert (block + rest)[1..] == block[1..] + rest && (block + rest)[0] == block[0];
    }
  }

  lemma HiddenBlock(block: string, rest: string, p: string)
    requires Hides(block, p) && !Occurs(p, rest)
    ensures !Occurs(p, block + rest)
  {
    SkipsBlock(block[1..], rest, p);
    var all := block + rest;
    assert all[1..] == block[1..] + rest && all[0] == block[0];
    if block[0] == p[0] {
      var j :| 0 <= j < |block| && j < |p| && block[j] != p[j];
      DifferAt(p, all, j);
    }
  }

  /** Where a character is kept, the pattern begins in the result only if it began there before. */
  lemma KeptPlace(s: string, from: string, to: string, p: string)
    requires s != "" && from != "" && to != "" && p != "" && from[0] !in p[1..] && to[0] !in p[1..] && !(from <= s)
    ensures p <= ReplaceAll(s, from, to) <==> p <= s
  {
    ReplaceAllKeepsHead(s[1..], from, to, p[1..]);
    PrefixSteps(p, s);
    PrefixSteps(p, ReplaceAll(s, from, to));
  }

  /** ReplaceAll leaves no occurrence, if what it puts in hides one. */
  lemma {:induction false} ReplaceAllRemoves(s: string, from: string, to: string)
    requires from != "" && Hides(to, from) && from[0] !in from[1..] && to[0] !in from[1..]
    ensures !Occurs(from, ReplaceAll(s, from, to))
    decreases |s|
  {
    if s != "" {
      if from <= s {
        ReplaceAllRemoves(s[|from|..], from, to);
        HiddenBlock(to, ReplaceAll(s[|from|..], from, to), from);
      } else {
        ReplaceAllRemoves(s[1..], from, to);
        KeptPlace(s, from, to, from);
        assert ReplaceAll(s, from, to)[1..] == ReplaceAll(s[1..], from, to);
      }
    }
  }

  lemma {:induction false} AbsentFromRest(p: string, s: string, n: nat)
    requires !Occurs(p, s) && n <= |s|
    ensures !Occurs(p, s[n..])
    decreases n
  {
    if n == 0 {
      assert s[0..] == s;
    } else {
      AbsentFromRest(p, s[1..], n - 1);
      assert s[1..][n - 1..] == s[n..];
    }
  }

  /** And brings none of another pattern in. */
  lemma {:induction false} ReplaceAllKeepsAbsent(s: string, from: string, to: string, p: string)
    requires from != "" && Hides(to, p) && from[0] !in p[1..] && to[0] !in p[1..] && !Occurs(p, s)
    ensures !Occurs(p, ReplaceAll(s, from, to))
    decreases |s|
  {
    if s != "" {
      if from <= s {
        AbsentFromRest(p, s, |from|);
        ReplaceAllKeepsAbsent(s[|from|..], from, to, p);
        HiddenBlock(to, ReplaceAll(s[|from|..], from, to), p);
      } else {
        ReplaceAllKeepsAbsent(s[1..], from, to, p);
        KeptPlace(s, from, to, p);
        assert ReplaceAll(s, from, to)[1..] == ReplaceAll(s[1..], from, to);
      }
    }
  }

  lemma LegacyPatterns()
    ensures var a, c := "FROM stream_settings AS legacy", "JOIN stream_settings AS legacy";
            && a[0] == 'F' && c[0] == 'J' && a[5] == c[5] == 's'
            && (forall i | 1 <= i < |a| :: a[i] != 'F' && a[i] != 'J') && (forall i | 1 <= i < |c| :: c[i] != 'F' && c[i] != 'J')
  {
  }

  lemma SourcePieces()
    ensures var a, b, c := "FROM v2_migration_bundle8b", "JOIN v2_migration_bundle8b", "_discord_source AS legacy";
            && a[0] == 'F' && b[0] == 'J' && a[5] == b[5] == 'v'
            && (forall i | 1 <= i < |a| :: a[i] != 'F' && a[i] != 'J') && (forall i | 1 <= i < |b| :: b[i] != 'F' && b[i] != 'J')
            && (forall i | 0 <= i < |c| :: c[i] != 'F' && c[i] != 'J')
  {
  }

  lemma SourcesHide()
    ensures var a, c := "FROM stream_settings AS legacy", "JOIN stream_settings AS legacy";
            var b, d := "FROM v2_migration_bundle8b" + "_discord_source AS legacy", "JOIN v2_migration_bundle8b" + "_discord_source AS legacy";
            Hides(b, a) && Hides(d, c) && Hides(d, a)
  {
    LegacyPatterns();
    SourcePieces();
    var a, c := "FROM stream_settings AS legacy", "JOIN stream_settings AS legacy";
    var b, d := "FROM v2_migration_bundle8b" + "_discord_source AS legacy", "JOIN v2_migration_bundle8b" + "_discord_source AS legacy";
    assert b[5] != a[5] && d[5] != c[5];
  }

  /** No text that is executed reads the removed columns through the legacy alias. */
  lemma SnapshotReadsNoLegacy(stmt: string)
    ensures !Occurs("FROM stream_settings AS legacy", FromSnapshot(stmt))
    ensures !Occurs("JOIN stream_settings AS legacy", FromSnapshot(stmt))
  {
    LegacyPatterns();
    SourcePieces();
    SourcesHide();
    var a, b := "FROM stream_settings AS legacy", "FROM v2_migration_bundle8b" + "_discord_source AS legacy";
    var c, d := "JOIN stream_settings AS legacy", "JOIN v2_migration_bundle8b" + "_discord_source AS legacy";
    assert b[0] == 'F' && d[0] == 'J';
    var once := ReplaceAll(stmt, a, b);
    ReplaceAllRemoves(stmt, a, b);
    ReplaceAllKeepsAbsent(once, c, d, a);
    ReplaceAllRemoves(once, c, d);
  }

  lemma ExecutedReadsNoLegacy(original: string)
    requires PlanOf(original).Do?
    ensures !Occurs("FROM stream_settings AS legacy", PlanOf(original).text)
    ensures !Occurs("JOIN stream_settings AS legacy", PlanOf(original).text)
  {
    var stmt := TrimComments(original);
    SnapshotReadsNoLegacy(if IsGate(stmt) then GateInsert
                          else if "INSERT INTO" + " v2_migration_legacy_agent_export" <= stmt then IgnoringExport(stmt)
                          else stmt);
  }
}
