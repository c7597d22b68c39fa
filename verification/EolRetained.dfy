/**
 The retained-state projection behind the resume checkpoint of migration 081:
 ten tables, row by row, without the columns the migration removes.
 */
module EolRetained {
  import opened Text

  datatype Cell = Null | Bytes(text: string)

  /** Columns, and the rows in the order of the first column. */
  datatype RawTable = RawTable(columns: seq<string>, rows: seq<seq<Cell>>)

  type Table = t: RawTable | forall i | 0 <= i < |t.rows| :: |t.rows[i]| == |t.columns|
    witness RawTable([], [])

  type Tables = map<string, Table>

  /** What one checkpoint feeds to the hash for one table. */
  datatype Section = Section(name: string, rows: seq<seq<Cell>>)

  const DiscordColumns: set<string> := {
    "discord_target_mode", "discord_target_preset_id", "discord_target_preset_revision",
    "discord_guild_id", "discord_text_channel_id", "discord_voice_channel_id"}

  /** The columns of a table that the migration removes. */
  function Legacy(name: string): set<string> {
    if name == "stream_settings" then DiscordColumns
    else if name == "system_update_execution_hosts" then {"legacy_agent_service_id"}
    else {}
  }

  const HashedTables: seq<string> := [
    "stream_settings", "stream_visual_settings", "system_update_execution_hosts", "stream_artifacts",
    "drive_destinations", "v2_migration_discord_targets_backup", "v2_migration_archive_artifacts_backup",
    "v2_migration_legacy_agent_export", "v2_migration_bundle8b_discord_source", "v2_migration_bundle8b_host_source"]

  // ------------------------------------------------------------ the projection

  /** The cells of a row whose column is not gone. */
  function Without(columns: seq<string>, row: seq<Cell>, gone: set<string>): seq<Cell>
    requires |row| == |columns|
  {
    if columns == [] then []
    else
      var n := |columns| - 1;
      Without(columns[..n], row[..n], gone) + (if columns[n] in gone then [] else [row[n]])
  }

  function ColumnsWithout(columns: seq<string>, gone: set<string>): seq<string> {
    if columns == [] then []
    else
      var n := |columns| - 1;
      ColumnsWithout(columns[..n], gone) + (if columns[n] in gone then [] else [columns[n]])
  }

  lemma {:induction false} WithoutLength(columns: seq<string>, row: seq<Cell>, gone: set<string>)
    requires |row| == |columns|
    ensures |Without(columns, row, gone)| == |ColumnsWithout(columns, gone)|
  {
    if columns != [] {
      var n := |columns| - 1;
      WithoutLength(columns[..n], row[..n], gone);
    }
  }

  /** Dropping some legacy columns first does not change what all of them leave. */
  lemma {:induction false} WithoutTwice(columns: seq<string>, row: seq<Cell>, gone: set<string>, legacy: set<string>)
    requires |row| == |columns| && gone <= legacy
    ensures |Without(columns, row, gone)| == |ColumnsWithout(columns, gone)|
    ensures Without(ColumnsWithout(columns, gone), Without(columns, row, gone), legacy) == Without(columns, row, legacy)
  {
    WithoutLength(columns, row, gone);
    if columns == [] {
      assert ColumnsWithout(columns, gone) == [] && Without(columns, row, gone) == [];
    } else {
      var n := |columns| - 1;
      WithoutTwice(columns[..n], row[..n], gone, legacy);
      var c, r := ColumnsWithout(columns[..n], gone), Without(columns[..n], row[..n], gone);
      assert (c + [columns[n]])[..|c|] == c && (r + [row[n]])[..|c|] == r;
      assert Without(c + [columns[n]], r + [row[n]], legacy)
          == Without(c, r, legacy) + (if columns[n] in legacy then [] else [row[n]]);
      assert c + [] == c && r + [] == r;
    }
  }

  function RetainedRows(t: Table, legacy: set<string>): (r: seq<seq<Cell>>)
    ensures |r| == |t.rows|
    ensures forall i | 0 <= i < |r| :: r[i] == Without(t.columns, t.rows[i], legacy)
  {
    seq(|t.rows|, i requires 0 <= i < |t.rows| => Without(t.columns, t.rows[i], legacy))
  }

  /** ALTER TABLE … DROP COLUMN of a set of columns. */
  function DropColumns(t: Table, gone: set<string>): (r: Table)
    ensures |r.rows| == |t.rows|
  {
    var rows := RetainedRows(t, gone);
    assert forall i | 0 <= i < |rows| :: |rows[i]| == |ColumnsWithout(t.columns, gone)| by {
      forall i | 0 <= i < |rows|
        ensures |rows[i]| == |ColumnsWithout(t.columns, gone)|
      {
        WithoutLength(t.columns, t.rows[i], gone);
      }
    }
    RawTable(ColumnsWithout(t.columns, gone), rows)
  }

  lemma DropKeepsRetainedRows(t: Table, gone: set<string>, legacy: set<string>)
    requires gone <= legacy
    ensures RetainedRows(DropColumns(t, gone), legacy) == RetainedRows(t, legacy)
  {
    forall i | 0 <= i < |t.rows|
      ensures RetainedRows(DropColumns(t, gone), legacy)[i] == RetainedRows(t, legacy)[i]
    {
      WithoutTwice(t.columns, t.rows[i], gone, legacy);
    }
  }

  predicate HasAll(tables: Tables, names: seq<string>) {
    forall i | 0 <= i < |names| :: names[i] in tables
  }

  function Sections(tables: Tables, names: seq<string>): (r: seq<Section>)
    requires HasAll(tables, names)
    ensures |r| == |names|
    ensures forall i | 0 <= i < |r| :: r[i] == Section(names[i], RetainedRows(tables[names[i]], Legacy(names[i])))
  {
    seq(|names|, i requires 0 <= i < |names| => Section(names[i], RetainedRows(tables[names[i]], Legacy(names[i]))))
  }

  // --------------------------------------------------------------- the hash

  /** The JSON of a row and the digest of a text. */
  datatype Hasher = Hasher(encode: seq<Cell> -> string, digest: string -> string)

  /** A JSON array starts with a bracket, has no raw newline, and tells rows apart; so does the digest for texts. */
  ghost predicate Faithful(h: Hasher) {
    && (forall row :: IsLine(h.encode(row)))
    && (forall a, b :: h.encode(a) == h.encode(b) ==> a == b)
    && (forall a, b :: h.digest(a) == h.digest(b) ==> a == b)
  }

  predicate IsLine(s: string) {
    s != "" && s[0] == '[' && '\n' !in s
  }

  predicate IsHeading(s: string) {
    s != "" && s[0] != '[' && '\n' !in s
  }

  function Lines(h: Hasher, rows: seq<seq<Cell>>): string {
    if rows == [] then "" else h.encode(rows[0]) + "\n" + Lines(h, rows[1..])
  }

  function Feed(h: Hasher, sections: seq<Section>): string {
    if sections == [] then ""
    else sections[0].name + "\n" + Lines(h, sections[0].rows) + Feed(h, sections[1..])
  }

  lemma {:induction false} LinesGrow(h: Hasher, rows: seq<seq<Cell>>, row: seq<Cell>)
    ensures Lines(h, rows + [row]) == Lines(h, rows) + h.encode(row) + "\n"
  {
    if rows == [] {
      assert Lines(h, [row]) == h.encode(row) + "\n" + "";
    } else {
      LinesGrow(h, rows[1..], row);
      assert (rows + [row])[1..] == rows[1..] + [row];
    }
  }

  lemma {:induction false} FeedGrows(h: Hasher, sections: seq<Section>, s: Section)
    ensures Feed(h, sections + [s]) == Feed(h, sections) + s.name + "\n" + Lines(h, s.rows)
  {
    if sections == [] {
      assert Feed(h, [s]) == s.name + "\n" + Lines(h, s.rows) + "";
    } else {
      FeedGrows(h, sections[1..], s);
      assert (sections + [s])[1..] == sections[1..] + [s];
    }
  }

  /** The first newline marks where the first line ends. */
  lemma FirstLineIsUnique(a: string, x: string, b: string, y: string)
    requires '\n' !in a && '\n' !in b && a + "\n" + x == b + "\n" + y
    ensures a == b && x == y
  {
    var s := a + "\n" + x;
    assert s[|a|] == '\n';
    assert (b + "\n" + y)[|b|] == '\n';
    assert forall i | 0 <= i < |a| :: s[i] == a[i] && a[i] in a;
    assert forall i | 0 <= i < |b| :: s[i] == b[i] && b[i] in b;
    assert a == s[..|a|] == b;
    assert x == s[|a| + 1..] == y;
  }

  predicate NoBracket(s: string) {
    s != "" ==> s[0] != '['
  }

  lemma LinesStart(h: Hasher, rows: seq<seq<Cell>>, rest: string)
    requires Faithful(h) && NoBracket(rest)
    ensures rows == [] <==> NoBracket(Lines(h, rows) + rest)
  {
    if rows != [] {
      assert IsLine(h.encode(rows[0]));
      assert (Lines(h, rows) + rest)[0] == h.encode(rows[0])[0];
    } else {
      assert Lines(h, rows) + rest == rest;
    }
  }

  /** The rows can be read back from their lines, up to the next heading. */
  lemma {:induction false} LinesAreUnique(h: Hasher, a: seq<seq<Cell>>, x: string, b: seq<seq<Cell>>, y: string)
    requires Faithful(h) && NoBracket(x) && NoBracket(y) && Lines(h, a) + x == Lines(h, b) + y
    ensures a == b && x == y
  {
    LinesStart(h, a, x);
    LinesStart(h, b, y);
    if a != [] {
      var p, q := Lines(h, a[1..]) + x, Lines(h, b[1..]) + y;
      assert Lines(h, a) + x == h.encode(a[0]) + "\n" + p;
      assert Lines(h, b) + y == h.encode(b[0]) + "\n" + q;
      assert IsLine(h.encode(a[0])) && IsLine(h.encode(b[0]));
      FirstLineIsUnique(h.encode(a[0]), p, h.encode(b[0]), q);
      LinesAreUnique(h, a[1..], x, b[1..], y);
      assert a == [a[0]] + a[1..] && b == [b[0]] + b[1..];
    } else {
      assert x == Lines(h, a) + x && y == Lines(h, b) + y;
    }
  }

  ghost predicate Headed(sections: seq<Section>) {
    forall i | 0 <= i < |sections| :: IsHeading(sections[i].name)
  }

  lemma FeedStart(h: Hasher, sections: seq<Section>)
    requires Headed(sections)
    ensures NoBracket(Feed(h, sections))
  {
    if sections != [] {
      assert Feed(h, sections)[0] == sections[0].name[0];
    }
  }

  lemma FirstSectionIsUnique(h: Hasher, a: Section, x: string, b: Section, y: string)
    requires Faithful(h) && IsHeading(a.name) && IsHeading(b.name) && NoBracket(x) && NoBracket(y)
    requires a.name + "\n" + Lines(h, a.rows) + x == b.name + "\n" + Lines(h, b.rows) + y
    ensures a == b && x == y
  {
    var p, q := Lines(h, a.rows) + x, Lines(h, b.rows) + y;
    assert a.name + "\n" + Lines(h, a.rows) + x == a.name + "\n" + p;
    assert b.name + "\n" + Lines(h, b.rows) + y == b.name + "\n" + q;
    FirstLineIsUnique(a.name, p, b.name, q);
    LinesAreUnique(h, a.rows, x, b.rows, y);
  }

  /** The fed text determines every retained row of every table. */
  lemma {:induction false} FeedIsUnique(h: Hasher, a: seq<Section>, b: seq<Section>)
    requires Faithful(h) && Headed(a) && Headed(b) && |a| == |b| && Feed(h, a) == Feed(h, b)
    ensures a == b
  {
    if a != [] {
      FeedStart(h, a[1..]);
      FeedStart(h, b[1..]);
      FirstSectionIsUnique(h, a[0], Feed(h, a[1..]), b[0], Feed(h, b[1..]));
      FeedIsUnique(h, a[1..], b[1..]);
      assert a == [a[0]] + a[1..] && b == [b[0]] + b[1..];
    }
  }

  /** The checkpoint digest; there is none while a table is missing. */
  function Fingerprint(h: Hasher, names: seq<string>, tables: Tables): Option<string> {
    if HasAll(tables, names) then Some(h.digest(Feed(h, Sections(tables, names)))) else None
  }

  ghost predicate PlainNames(names: seq<string>) {
    forall i | 0 <= i < |names| :: IsHeading(names[i])
  }

  lemma HashedTablesArePlain()
    ensures PlainNames(HashedTables)
  {
    forall i | 0 <= i < |HashedTables|
      ensures IsHeading(HashedTables[i])
    {
      assert HashedTables[i][0] in "sdv";
    }
  }

  /** Equal digests mean equal retained rows. */
  lemma FingerprintTellsRowsApart(h: Hasher, names: seq<string>, a: Tables, b: Tables)
    requires Faithful(h) && PlainNames(names)
    requires HasAll(a, names) && HasAll(b, names)
    ensures Fingerprint(h, names, a) == Fingerprint(h, names, b) <==> Sections(a, names) == Sections(b, names)
  {
    if Fingerprint(h, names, a) == Fingerprint(h, names, b) {
      FeedIsUnique(h, Sections(a, names), Sections(b, names));
    }
  }

  /** Dropping any legacy columns of any table leaves the digest alone. */
  lemma DroppingLegacyKeepsFingerprint(h: Hasher, names: seq<string>, tables: Tables, name: string, gone: set<string>)
    requires name in tables && gone <= Legacy(name)
    ensures Fingerprint(h, names, tables[name := DropColumns(tables[name], gone)]) == Fingerprint(h, names, tables)
  {
    var after := tables[name := DropColumns(tables[name], gone)];
    DropKeepsRetainedRows(tables[name], gone, Legacy(name));
    if HasAll(tables, names) {
      assert Sections(after, names) == Sections(tables, names);
    } else {
      var i :| 0 <= i < |names| && names[i] !in tables;
      assert names[i] !in after;
    }
  }

  // ------------------------------------------------------- the hashing loops

  /** The column loop. */
  method RetainCells(columns: seq<string>, row: seq<Cell>, gone: set<string>) returns (retained: seq<Cell>)
    requires |row| == |columns|
    ensures retained == Without(columns, row, gone)
  {
    retained := [];
    for i := 0 to |columns|
      invariant retained == Without(columns[..i], row[..i], gone)
    {
      assert columns[..i + 1][..i] == columns[..i] && row[..i + 1][..i] == row[..i];
      if columns[i] !in gone {
        retained := retained + [row[i]];
      }
    }
    assert columns[..|columns|] == columns && row[..|columns|] == row;
  }

  /** The row loop. */
  method FeedTable(h: Hasher, name: string, t: Table, before: string) returns (fed: string)
    ensures fed == before + name + "\n" + Lines(h, RetainedRows(t, Legacy(name)))
  {
    fed := before + name + "\n";
    ghost var rows := RetainedRows(t, Legacy(name));
    for i := 0 to |t.rows|
      invariant fed == before + name + "\n" + Lines(h, rows[..i])
    {
      var retained := RetainCells(t.columns, t.rows[i], Legacy(name));
      LinesGrow(h, rows[..i], retained);
      assert rows[..i + 1] == rows[..i] + [retained];
      fed := fed + h.encode(retained) + "\n";
    }
    assert rows[..|t.rows|] == rows;
  }

  lemma SectionsGrow(tables: Tables, names: seq<string>, i: nat)
    requires i < |names| && HasAll(tables, names[..i]) && names[i] in tables
    ensures HasAll(tables, names[..i + 1])
    ensures Sections(tables, names[..i + 1])
         == Sections(tables, names[..i]) + [Section(names[i], RetainedRows(tables[names[i]], Legacy(names[i])))]
  {
    assert names[..i + 1] == names[..i] + [names[i]];
  }

  /** The table loop; it stops at a table that cannot be read. */
  method Hash(h: Hasher, names: seq<string>, tables: Tables) returns (r: Option<string>)
    ensures r == Fingerprint(h, names, tables)
  {
    var fed := "";
    for i := 0 to |names|
      invariant HasAll(tables, names[..i])
      invariant fed == Feed(h, Sections(tables, names[..i]))
    {
      if names[i] !in tables {
        return None;
      }
      SectionsGrow(tables, names, i);
      FeedGrows(h, Sections(tables, names[..i]), Section(names[i], RetainedRows(tables[names[i]], Legacy(names[i]))));
      fed := FeedTable(h, names[i], tables[names[i]], fed);
    }
    assert names[..|names|] == names;
    return Some(h.digest(fed));
  }
}
