/**
 How the runner of migration 081 rewrites the statements of the distributed SQL
 before it executes them. The longest texts are written in two parts.
 */
module EolStatements {
  import opened Text

  /** What follows the first newline; empty when there is none. */
  function AfterLine(s: string): (r: string)
    ensures |r| <= |s| && (s != "" ==> |r| < |s|)
    ensures r == s[|s| - |r|..]
  {
    if s == "" then "" else if s[0] == '\n' then s[1..] else AfterLine(s[1..])
  }

  function TrimComments(stmt: string): (r: string)
    ensures Trimmed(r) && !HasPrefix(r, "--")
    decreases |stmt|
  {
    if HasPrefix(Trim(stmt), "--") then TrimComments(AfterLine(Trim(stmt))) else Trim(stmt)
  }

  method TrimMigrationComments(original: string) returns (r: string)
    ensures r == TrimComments(original)
  {
    var stmt := original;
    while HasPrefix(Trim(stmt), "--")
      invariant TrimComments(stmt) == TrimComments(original)
      decreases |stmt|
    {
      stmt := AfterLine(Trim(stmt));
    }
    return Trim(stmt);
  }

  lemma {:induction false} AfterLineSkips(line: string, rest: string)
    requires '\n' !in line
    ensures AfterLine(line + "\n" + rest) == rest
  {
    var s := line + "\n" + rest;
    if line != "" {
      AfterLineSkips(line[1..], rest);
      assert s[1..] == line[1..] + "\n" + rest;
      assert s[0] == line[0] && line[0] in line;
    }
  }

  /** Leading comment lines are all that is removed: what is left does not depend on them. */
  lemma CommentLineIsSkipped(comment: string, stmt: string)
    requires '\n' !in comment && Trimmed(stmt) && stmt != ""
    ensures TrimComments("--" + comment + "\n" + stmt) == TrimComments(stmt)
  {
    var s := "--" + comment + "\n" + stmt;
    assert s[0] == '-' && s[|s| - 1] == stmt[|stmt| - 1];
    TrimOfTrimmed(s);
    assert "--" <= s;
    assert s == ("--" + comment) + "\n" + stmt;
    AfterLineSkips("--" + comment, stmt);
  }

  /** strings.ReplaceAll for a non-empty `from`. */
  function ReplaceAll(s: string, from: string, to: string): string
    requires from != ""
  {
    if s == "" then ""
    else if from <= s then to + ReplaceAll(s[|from|..], from, to)
    else [s[0]] + ReplaceAll(s[1..], from, to)
  }

  /** strings.Replace with n = 1. */
  function ReplaceFirst(s: string, from: string, to: string): string
    requires from != ""
  {
    if s == "" then ""
    else if from <= s then to + s[|from|..]
    else [s[0]] + ReplaceFirst(s[1..], from, to)
  }

  /** What strings.Cut gives before the first `mark`. */
  function Before(s: string, mark: string): string {
    if s == "" || mark <= s then "" else [s[0]] + Before(s[1..], mark)
  }

  /** What happens to one statement: it is left out, or executed after its gates and checkpoint. */
  datatype Plan = Skip | Do(text: string, gated: bool, guarded: bool)

  predicate Replaced(stmt: string) {
    || HasPrefix(stmt, "ALTER TABLE" + " v2_migration_archive_artifacts_backup")
    || HasPrefix(stmt, "CREATE TABLE IF NOT EXISTS" + " v2_migration_bundle8b_artifact_gate")
    || HasPrefix(stmt, "INSERT INTO" + " v2_migration_bundle8b_artifact_gate")
    || HasPrefix(stmt, "UPDATE" + " v2_migration_archive_artifacts_backup")
    || HasPrefix(stmt, "UPDATE stream_artifacts")
  }

  const GateInsert: string := "INSERT INTO v2_migration_bundle8b_gate" + " (gate_id,mismatch_count,verified_at)\n VALUES (1,0,CURRENT_TIMESTAMP(6)) ON DUPLICATE KEY UPDATE mismatch_count=0,verified_at=VALUES(verified_at)"

  function FromSnapshot(stmt: string): string {
    ReplaceAll(ReplaceAll(stmt, "FROM stream_settings AS legacy", "FROM v2_migration_bundle8b" + "_discord_source AS legacy"),
               "JOIN stream_settings AS legacy", "JOIN v2_migration_bundle8b" + "_discord_source AS legacy")
  }

  function IgnoringExport(stmt: string): string {
    ReplaceAll(ReplaceFirst(Before(stmt, "ON DUPLICATE KEY UPDATE"), "INSERT INTO", "INSERT IGNORE INTO"),
               "FROM system_update_execution_hosts", "FROM v2_migration_bundle8b_host_source")
  }

  predicate IsGate(stmt: string) {
    HasPrefix(stmt, "INSERT INTO v2_migration_bundle8b_gate")
  }

  function Rewritten(stmt: string): string {
    FromSnapshot(if IsGate(stmt) then GateInsert
                 else if HasPrefix(stmt, "INSERT INTO" + " v2_migration_legacy_agent_export") then IgnoringExport(stmt)
                 else stmt)
  }

  predicate DropsView(stmt: string) {
    HasPrefix(stmt, "DROP VIEW")
  }

  /** The switch over a statement without its leading comments. */
  function PlanFor(stmt: string): Plan {
    if Replaced(stmt) then Skip else Do(Rewritten(stmt), IsGate(stmt), DropsView(Rewritten(stmt)))
  }

  function PlanOf(original: string): Plan {
    PlanFor(TrimComments(original))
  }

  /** A replacement that starts with neither letter of `head` leaves a leading `head` as it is. */
  lemma {:induction false} ReplaceAllKeepsHead(s: string, from: string, to: string, head: string)
    requires from != "" && to != "" && from[0] !in head && to[0] !in head
    ensures head <= ReplaceAll(s, from, to) <==> head <= s
  {
    if s != "" && head != "" {
      if from <= s {
        assert s[0] == from[0] && head[0] in head;
        assert ReplaceAll(s, from, to)[0] == to[0];
      } else {
        ReplaceAllKeepsHead(s[1..], from, to, head[1..]);
        PrefixSteps(head, s);
        PrefixSteps(head, ReplaceAll(s, from, to));
      }
    }
  }

  lemma PrefixSteps(head: string, s: string)
    requires head != "" && s != ""
    ensures head <= s <==> head[0] == s[0] && head[1..] <= s[1..]
  {
    if head[0] == s[0] && head[1..] <= s[1..] {
      assert head == [head[0]] + head[1..] && s == [s[0]] + s[1..];
    }
  }

  /** A text that starts with a non-empty head starts with its letter. */
  lemma StartsWith(s: string, head: string, c: char)
    requires head <= s && head != "" && head[0] == c
    ensures s != "" && s[0] == c
  {
  }

  lemma DropViewLetters()
    ensures 'F' !in "DROP VIEW" && 'J' !in "DROP VIEW"
  {
    var head := "DROP VIEW";
    assert forall i | 0 <= i < |head| :: head[i] in {'D', 'R', 'O', 'P', ' ', 'V', 'I', 'E', 'W'};
  }

  lemma SnapshotKeepsDropView(stmt: string)
    ensures DropsView(FromSnapshot(stmt)) <==> DropsView(stmt)
  {
    DropViewLetters();
    var a, b := "FROM stream_settings AS legacy", "FROM v2_migration_bundle8b" + "_discord_source AS legacy";
    var c, d := "JOIN stream_settings AS legacy", "JOIN v2_migration_bundle8b" + "_discord_source AS legacy";
    assert a[0] == b[0] == 'F' && c[0] == d[0] == 'J';
    ReplaceAllKeepsHead(stmt, a, b, "DROP VIEW");
    ReplaceAllKeepsHead(ReplaceAll(stmt, a, b), c, d, "DROP VIEW");
  }

  /** A text that starts with another letter than D drops no view. */
  lemma OtherLetterDropsNothing(stmt: string)
    requires stmt != "" && stmt[0] != 'D'
    ensures !DropsView(stmt)
  {
    var head := "DROP VIEW";
    if head <= stmt {
      StartsWith(stmt, head, 'D');
    }
  }

  lemma ExportDropsNothing(stmt: string)
    requires stmt != "" && stmt[0] == 'I'
    ensures !DropsView(IgnoringExport(stmt))
  {
    var mark, insert, ignore := "ON DUPLICATE KEY UPDATE", "INSERT INTO", "INSERT IGNORE INTO";
    var from, to := "FROM system_update_execution_hosts", "FROM v2_migration_bundle8b_host_source";
    assert mark[0] == 'O' && insert[0] == ignore[0] == 'I' && from[0] == to[0] == 'F';
    var head := Before(stmt, mark);
    assert head[0] == 'I';
    var ignoring := ReplaceFirst(head, insert, ignore);
    assert ignoring[0] == 'I';
    ReplaceAllKeepsHead(ignoring, from, to, "I");
    assert IgnoringExport(stmt)[0] == 'I';
    OtherLetterDropsNothing(IgnoringExport(stmt));
  }

  /** What replaces a statement that drops no view drops no view. */
  lemma RewrittenKeepsDropView(stmt: string)
    ensures DropsView(Rewritten(stmt)) <==> DropsView(stmt)
  {
    var gate, export_ := "INSERT INTO v2_migration_bundle8b_gate", "INSERT INTO" + " v2_migration_legacy_agent_export";
    if gate <= stmt {
      StartsWith(stmt, gate, 'I');
      OtherLetterDropsNothing(stmt);
      OtherLetterDropsNothing(GateInsert);
      SnapshotKeepsDropView(GateInsert);
    } else if export_ <= stmt {
      StartsWith(stmt, export_, 'I');
      OtherLetterDropsNothing(stmt);
      ExportDropsNothing(stmt);
      SnapshotKeepsDropView(IgnoringExport(stmt));
    } else {
      SnapshotKeepsDropView(stmt);
    }
  }

  lemma ReplacedDropsNothing(stmt: string)
    requires Replaced(stmt)
    ensures !DropsView(stmt)
  {
    assert stmt != "" && stmt[0] in {'A', 'C', 'I', 'U'};
    OtherLetterDropsNothing(stmt);
  }

  /** The checkpoint guards exactly the statements that drop a view, however they are commented or rewritten. */
  lemma GuardsExactlyDropView(original: string)
    ensures (PlanOf(original).Do? && PlanOf(original).guarded) <==> DropsView(TrimComments(original))
  {
    var stmt := TrimComments(original);
    RewrittenKeepsDropView(stmt);
    if Replaced(stmt) {
      ReplacedDropsNothing(stmt);
    }
  }
}
