/**
 The SQL statement splitter of the migration runner. The loop looks one and two
 characters ahead; it is proved equal to a scanner that reads one character at a
 time and never looks ahead, and what the splitter promises is proved of that.
 */
module SqlSplitter {
  import opened Text

  // ---------------------------------------------------------------- scanner

  /**
   Where a left-to-right reader stands. The states after the first seven are
   inside a comment, a string or a quoted name; the first seven are outside.
   */
  datatype Scan =
    | Plain        // outside, nothing pending
    | Dash         // outside, the last character was '-'
    | DashDash     // outside, the last two were "--": a comment if a blank follows
    | Slash        // outside, the last character was '/'
    | SingleEnd    // a '\'' that closes the string unless it is doubled
    | DoubleEnd    // the same for '"'
    | TickEnd      // the same for '`'
    | Line         // -- or # comment
    | Block        // /* comment
    | BlockStar    // /* comment, the last character was '*'
    | Single | SingleEscape
    | Double | DoubleEscape
    | Tick

  predicate IsBlank(c: char) {
    c == ' ' || c == '\t' || c == '\r' || c == '\n' || c == '\U{0C}'
  }

  predicate Outside(s: Scan) {
    s.Plain? || s.Dash? || s.DashDash? || s.Slash? || s.SingleEnd? || s.DoubleEnd? || s.TickEnd?
  }

  /** A character read outside every comment and quotation. */
  function Fresh(c: char): Scan {
    match c
    case '\'' => Single
    case '"' => Double
    case '`' => Tick
    case '-' => Dash
    case '#' => Line
    case '/' => Slash
    case _ => Plain
  }

  function Next(s: Scan, c: char): Scan {
    match s
    case Plain => Fresh(c)
    case Dash => if c == '-' then DashDash else Fresh(c)
    case DashDash => if c == '\n' then Plain else if IsBlank(c) then Line else if c == '-' then DashDash else Fresh(c)
    case Slash => if c == '*' then Block else Fresh(c)
    case SingleEnd => if c == '\'' then Single else Fresh(c)
    case DoubleEnd => if c == '"' then Double else Fresh(c)
    case TickEnd => if c == '`' then Tick else Fresh(c)
    case Line => if c == '\n' then Plain else Line
    case Block => if c == '*' then BlockStar else Block
    case BlockStar => if c == '/' then Plain else if c == '*' then BlockStar else Block
    case Single => if c == '\\' then SingleEscape else if c == '\'' then SingleEnd else Single
    case SingleEscape => Single
    case Double => if c == '\\' then DoubleEscape else if c == '"' then DoubleEnd else Double
    case DoubleEscape => Double
    case Tick => if c == '`' then TickEnd else Tick
  }

  /** Whether the character separates two statements. */
  predicate Splits(s: Scan, c: char) {
    c == ';' && Outside(s)
  }

  /** The state after reading a text. */
  function Run(s: Scan, text: string): Scan
    decreases text
  {
    if text == "" then s else Run(Next(s, text[0]), text[1..])
  }

  /** No character of the text separates statements. */
  predicate Quiet(s: Scan, text: string)
    decreases text
  {
    text != "" ==> !Splits(s, text[0]) && Quiet(Next(s, text[0]), text[1..])
  }

  /** The text cut at its separators, before trimming. */
  function Segments(s: Scan, text: string): (r: seq<string>)
    ensures r != []
    decreases text
  {
    if text == "" then [""]
    else
      var rest := Segments(Next(s, text[0]), text[1..]);
      if Splits(s, text[0]) then [""] + rest else Attach([text[0]], rest)
  }

  /** Puts a text in front of the first segment. */
  function Attach(front: string, segments: seq<string>): (r: seq<string>)
    requires segments != []
    ensures r != []
  {
    [front + segments[0]] + segments[1..]
  }

  /** Trims the segments and drops the ones that become empty. */
  function Kept(segments: seq<string>): seq<string> {
    if segments == [] then []
    else if Trim(segments[0]) == "" then Kept(segments[1..])
    else [Trim(segments[0])] + Kept(segments[1..])
  }

  /** What splitting a text means. */
  function Statements(text: string): seq<string> {
    Kept(Segments(Plain, text))
  }

  function Join(parts: seq<string>, separator: string): string {
    if parts == [] then ""
    else if |parts| == 1 then parts[0]
    else parts[0] + separator + Join(parts[1..], separator)
  }

  // --------------------------------------------------------------- the loop

  /** The state variable of the loop. */
  datatype Mode = Normal | SingleQuote | DoubleQuote | Backtick | LineComment | BlockComment

  predicate StartsLineComment(rest: string) {
    |rest| >= 2 && rest[0] == '-' && rest[1] == '-' && (|rest| == 2 || IsBlank(rest[2]))
  }

  predicate Leads(rest: string, c: char) {
    rest != "" && rest[0] == c
  }

  /**
   How the loop, standing before `rest`, relates to the scanner: the loop has
   already looked ahead, so it knows that a pending character will not fire.
   */
  ghost predicate Agrees(mode: Mode, s: Scan, rest: string) {
    match mode
    case Normal =>
      || s == Plain
      || (s == Dash && !(Leads(rest, '-') && (|rest| == 1 || IsBlank(rest[1]))))
      || (s == DashDash && rest != "" && !IsBlank(rest[0]) && !(rest[0] == '-' && (|rest| == 1 || IsBlank(rest[1]))))
      || (s == Slash && !Leads(rest, '*'))
      || (s == SingleEnd && !Leads(rest, '\''))
      || (s == DoubleEnd && !Leads(rest, '"'))
      || (s == TickEnd && !Leads(rest, '`'))
    case LineComment => s == Line || (s == DashDash && (rest == "" || IsBlank(rest[0])))
    case BlockComment => s == Block || (s == BlockStar && !Leads(rest, '/'))
    case SingleQuote => s == Single || (s == SingleEscape && rest == "")
    case DoubleQuote => s == Double || (s == DoubleEscape && rest == "")
    case Backtick => s == Tick
  }

  method Flush(out: seq<string>, current: string) returns (r: seq<string>)
    ensures r == out + Kept([current])
  {
    var stmt := Trim(current);
    r := out;
    if stmt != "" {
      r := r + [stmt];
    }
  }

  lemma KeptAppend(a: seq<string>, b: seq<string>)
    ensures Kept(a + b) == Kept(a) + Kept(b)
  {
    if a == [] {
      assert a + b == b;
    } else {
      assert (a + b)[1..] == a[1..] + b;
      KeptAppend(a[1..], b);
    }
  }

  lemma AttachNothing(segments: seq<string>)
    requires segments != []
    ensures Attach("", segments) == segments
  {
    assert "" + segments[0] == segments[0];
  }

  /** One ordinary character read by both. */
  lemma AttachOne(s: Scan, rest: string, current: string)
    requires rest != "" && !Splits(s, rest[0])
    ensures Attach(current, Segments(s, rest)) == Attach(current + [rest[0]], Segments(Next(s, rest[0]), rest[1..]))
  {
    var tail := Segments(Next(s, rest[0]), rest[1..]);
    assert current + ([rest[0]] + tail[0]) == current + [rest[0]] + tail[0];
  }

  lemma AttachTwo(s: Scan, rest: string, current: string)
    requires |rest| >= 2 && !Splits(s, rest[0]) && !Splits(Next(s, rest[0]), rest[1])
    ensures Attach(current, Segments(s, rest))
         == Attach(current + [rest[0]] + [rest[1]], Segments(Next(Next(s, rest[0]), rest[1]), rest[2..]))
  {
    AttachOne(s, rest, current);
    assert rest[1..][1..] == rest[2..];
    AttachOne(Next(s, rest[0]), rest[1..], current + [rest[0]]);
  }

  /** What one iteration consumes: one or two characters, the next mode, and whether it cuts. */
  datatype Move = Move(mode: Mode, width: nat, cut: bool)

  ghost function Iterate(mode: Mode, rest: string): (m: Move)
    requires rest != ""
    ensures 1 <= m.width <= |rest|
    ensures m.cut ==> m.width == 1
  {
    var c := rest[0];
    match mode
    case Normal =>
      if c == ';' then Move(Normal, 1, true)
      else if c == '\'' then Move(SingleQuote, 1, false)
      else if c == '"' then Move(DoubleQuote, 1, false)
      else if c == '`' then Move(Backtick, 1, false)
      else if StartsLineComment(rest) then Move(LineComment, 2, false)
      else if c == '#' then Move(LineComment, 1, false)
      else if c == '/' && Leads(rest[1..], '*') then Move(BlockComment, 2, false)
      else Move(Normal, 1, false)
    case LineComment => Move(if c == '\n' then Normal else LineComment, 1, false)
    case BlockComment =>
      if c == '*' && Leads(rest[1..], '/') then Move(Normal, 2, false) else Move(BlockComment, 1, false)
    case SingleQuote =>
      if c == '\\' && |rest| > 1 then Move(SingleQuote, 2, false)
      else if c == '\'' then (if Leads(rest[1..], '\'') then Move(SingleQuote, 2, false) else Move(Normal, 1, false))
      else Move(SingleQuote, 1, false)
    case DoubleQuote =>
      if c == '\\' && |rest| > 1 then Move(DoubleQuote, 2, false)
      else if c == '"' then (if Leads(rest[1..], '"') then Move(DoubleQuote, 2, false) else Move(Normal, 1, false))
      else Move(DoubleQuote, 1, false)
    case Backtick =>
      if c == '`' then (if Leads(rest[1..], '`') then Move(Backtick, 2, false) else Move(Normal, 1, false))
      else Move(Backtick, 1, false)
  }

  /** The scanner keeps up with one iteration: it cuts exactly where the loop cuts. */
  lemma IterateAgrees(mode: Mode, s: Scan, rest: string)
    requires rest != "" && Agrees(mode, s, rest)
    ensures var m := Iterate(mode, rest);
            && (m.cut <==> Splits(s, rest[0]))
            && (m.width == 1 ==> Agrees(m.mode, Next(s, rest[0]), rest[1..]))
            && (m.width == 2 ==> !Splits(Next(s, rest[0]), rest[1]))
            && (m.width == 2 ==> Agrees(m.mode, Next(Next(s, rest[0]), rest[1]), rest[2..]))
  {
  }

  /** One iteration leaves the final answer, read from the remaining text, unchanged. */
  lemma StepKeepsAnswer(mode: Mode, s: Scan, rest: string, out: seq<string>, current: string)
    returns (s': Scan)
    requires rest != "" && Agrees(mode, s, rest)
    ensures var m := Iterate(mode, rest);
            && Agrees(m.mode, s', rest[m.width..])
            && out + Kept(Attach(current, Segments(s, rest)))
            == (if m.cut then out + Kept([current]) + Kept(Attach("", Segments(s', rest[m.width..])))
                else out + Kept(Attach(current + rest[..m.width], Segments(s', rest[m.width..]))))
  {
    IterateAgrees(mode, s, rest);
    var m := Iterate(mode, rest);
    if m.cut {
      s' := Next(s, rest[0]);
      var tail := Segments(s', rest[1..]);
      AttachNothing(tail);
      assert current + "" == current;
      assert Attach(current, Segments(s, rest)) == [current] + tail;
      KeptAppend([current], tail);
    } else if m.width == 1 {
      s' := Next(s, rest[0]);
      AttachOne(s, rest, current);
      assert rest[..1] == [rest[0]];
    } else {
      s' := Next(Next(s, rest[0]), rest[1]);
      AttachTwo(s, rest, current);
      assert current + rest[..2] == current + [rest[0]] + [rest[1]];
    }
  }

  /** The body of the loop at one index: what it writes, or that it flushes, and where it goes. */
  method ReadAt(sqlText: string, index: nat, mode: Mode)
    returns (state: Mode, next: nat, written: string, flushed: bool)
    requires index < |sqlText|
    ensures var m := Iterate(mode, sqlText[index..]);
            && state == m.mode && next == index + m.width && flushed == m.cut
            && written == sqlText[index..][..m.width]
  {
    ghost var rest := sqlText[index..];
    assert index + 1 < |sqlText| ==> sqlText[index + 1] == rest[1] == rest[1..][0];
    assert index + 2 < |sqlText| ==> sqlText[index + 2] == rest[2];
    state, next := mode, index;
    var currentByte := sqlText[index];
    written := [currentByte];
    flushed := false;
    match state {
      case Normal =>
        if currentByte == ';' {
          flushed := true;
        } else if currentByte == '\'' {
          state := SingleQuote;
        } else if currentByte == '"' {
          state := DoubleQuote;
        } else if currentByte == '`' {
          state := Backtick;
        } else if currentByte == '-' {
          if index + 1 < |sqlText| && sqlText[index + 1] == '-' &&
             (index + 2 == |sqlText| || IsBlank(sqlText[index + 2])) {
            written := "--";
            next := next + 1;
            state := LineComment;
          }
        } else if currentByte == '#' {
          state := LineComment;
        } else if currentByte == '/' {
          if index + 1 < |sqlText| && sqlText[index + 1] == '*' {
            written := "/*";
            next := next + 1;
            state := BlockComment;
          }
        }
      case LineComment =>
        if currentByte == '\n' {
          state := Normal;
        }
      case BlockComment =>
        if currentByte == '*' && index + 1 < |sqlText| && sqlText[index + 1] == '/' {
          written := "*/";
          next := next + 1;
          state := Normal;
        }
      case SingleQuote =>
        if currentByte == '\\' && index + 1 < |sqlText| {
          next := next + 1;
          written := [currentByte, sqlText[next]];
        } else if currentByte == '\'' {
          if index + 1 < |sqlText| && sqlText[index + 1] == '\'' {
            written := "''";
            next := next + 1;
          } else {
            state := Normal;
          }
        }
      case DoubleQuote =>
        if currentByte == '\\' && index + 1 < |sqlText| {
          next := next + 1;
          written := [currentByte, sqlText[next]];
        } else if currentByte == '"' {
          if index + 1 < |sqlText| && sqlText[index + 1] == '"' {
            written := "\"\"";
            next := next + 1;
          } else {
            state := Normal;
          }
        }
      case Backtick =>
        if currentByte == '`' {
          if index + 1 < |sqlText| && sqlText[index + 1] == '`' {
            written := "``";
            next := next + 1;
          } else {
            state := Normal;
          }
        }
    }
    next := next + 1;
  }

  /** The splitter: its loop, with every look-ahead, computes Statements. */
  method SplitSQLStatements(sqlText: string) returns (out: seq<string>)
    ensures out == Statements(sqlText)
  {
    var current := "";
    out := [];
    var state := Normal;
    var index := 0;
    ghost var scan := Plain;
    assert sqlText[0..] == sqlText;
    AttachNothing(Segments(Plain, sqlText));
    while index < |sqlText|
      invariant 0 <= index <= |sqlText|
      invariant Agrees(state, scan, sqlText[index..])
      invariant Statements(sqlText) == out + Kept(Attach(current, Segments(scan, sqlText[index..])))
    {
      ghost var rest, m := sqlText[index..], Iterate(state, sqlText[index..]);
      scan := StepKeepsAnswer(state, scan, rest, out, current);
      var written, flushed;
      state, index, written, flushed := ReadAt(sqlText, index, state);
      assert rest[m.width..] == sqlText[index..];
      if flushed {
        out := Flush(out, current);
        current := "";
      } else {
        current := current + written;
      }
    }
    assert sqlText[index..] == "";
    assert current + "" == current;
    assert Attach(current, [""]) == [current];
    out := Flush(out, current);
  }

  // ------------------------------------------------- what splitting promises

  /** Cutting loses nothing: the segments joined with their separators are the text. */
  lemma {:induction false} SegmentsConserveText(s: Scan, text: string)
    ensures Join(Segments(s, text), ";") == text
    decreases text
  {
    if text != "" {
      var rest := Segments(Next(s, text[0]), text[1..]);
      SegmentsConserveText(Next(s, text[0]), text[1..]);
      if Splits(s, text[0]) {
        assert ([""] + rest)[1..] == rest;
        assert text == "" + ";" + text[1..];
      } else {
        assert Attach([text[0]], rest)[1..] == rest[1..];
        assert text == [text[0]] + text[1..];
        if |rest| > 1 {
          assert [text[0]] + (rest[0] + ";" + Join(rest[1..], ";")) == ([text[0]] + rest[0]) + ";" + Join(rest[1..], ";");
        }
      }
    }
  }

  lemma {:induction false} RunAppend(s: Scan, a: string, b: string)
    ensures Run(s, a + b) == Run(Run(s, a), b)
    ensures Quiet(s, a + b) <==> Quiet(s, a) && Quiet(Run(s, a), b)
    decreases a
  {
    if a == "" {
      assert a + b == b;
    } else {
      assert (a + b)[1..] == a[1..] + b;
      RunAppend(Next(s, a[0]), a[1..], b);
    }
  }

  /** A quiet text goes whole into the first segment. */
  lemma {:induction false} QuietAttaches(s: Scan, a: string, b: string)
    requires Quiet(s, a)
    ensures Segments(s, a + b) == Attach(a, Segments(Run(s, a), b))
    decreases a
  {
    if a == "" {
      assert a + b == b;
      AttachNothing(Segments(s, b));
    } else {
      assert (a + b)[1..] == a[1..] + b;
      QuietAttaches(Next(s, a[0]), a[1..], b);
      var tail := Segments(Run(s, a), b);
      assert [a[0]] + (a[1..] + tail[0]) == a + tail[0];
    }
  }

  lemma QuietAlone(s: Scan, a: string)
    requires Quiet(s, a)
    ensures Segments(s, a) == [a]
  {
    QuietAttaches(s, a, "");
    assert a + "" == a;
  }

  lemma CutReturns(s: Scan)
    requires Outside(s)
    ensures Next(s, ';') == Plain
  {
  }

  /** A quiet text, a separator met outside, and the rest: one segment and the rest. */
  lemma QuietThenCut(s: Scan, a: string, b: string)
    requires Quiet(s, a) && Outside(Run(s, a))
    ensures Segments(s, a + ";" + b) == [a] + Segments(Plain, b)
  {
    assert a + ";" + b == a + (";" + b);
    QuietAttaches(s, a, ";" + b);
    var here := Run(s, a);
    assert (";" + b)[1..] == b;
    CutReturns(here);
    assert Segments(here, ";" + b) == [""] + Segments(Plain, b);
    assert a + "" == a;
  }

  /** Every segment is quiet, and every segment but the last ends outside. */
  ghost predicate Cut(s: Scan, segments: seq<string>)
    requires segments != []
    decreases segments
  {
    && Quiet(s, segments[0])
    && (|segments| > 1 ==> Outside(Run(s, segments[0])) && Cut(Plain, segments[1..]))
  }

  lemma {:induction false} SegmentsAreCut(s: Scan, text: string)
    ensures Cut(s, Segments(s, text))
    decreases text
  {
    if text != "" {
      var rest := Segments(Next(s, text[0]), text[1..]);
      SegmentsAreCut(Next(s, text[0]), text[1..]);
      if Splits(s, text[0]) {
        assert ([""] + rest)[1..] == rest;
      } else {
        var all := Attach([text[0]], rest);
        assert all[1..] == rest[1..];
        assert all[0][1..] == rest[0];
      }
    }
  }

  /** Spaces read outside stay outside, so leading spaces are invisible to the scanner. */
  lemma {:induction false} SpacesStayPlain(spaces: string)
    requires AllSpace(spaces)
    ensures Run(Plain, spaces) == Plain && Quiet(Plain, spaces)
  {
    if spaces != "" {
      SpacesStayPlain(spaces[1..]);
    }
  }

  /** Spaces never leave a quotation or a block comment. */
  lemma {:induction false} SpacesStayInside(s: Scan, spaces: string)
    requires AllSpace(spaces)
    requires !Outside(s) && s != Line
    ensures !Outside(Run(s, spaces))
    decreases spaces
  {
    if spaces != "" {
      SpacesStayInside(Next(s, spaces[0]), spaces[1..]);
    }
  }

  /**
   Trimming may take away the blank a "--" looked at or the newline that ends a
   comment; a newline put after the trimmed text always brings the scanner back.
   */
  lemma NewlineReturns(s: Scan, spaces: string)
    requires AllSpace(spaces) && Outside(Run(s, spaces))
    ensures Next(s, '\n') == Plain
  {
    if !Outside(s) && s != Line {
      SpacesStayInside(s, spaces);
    }
  }

  /** A statement that can stand anywhere: quiet, trimmed, not empty. */
  ghost predicate Statement(a: string) {
    a != "" && Trimmed(a) && Quiet(Plain, a)
  }

  /** Statements of which all but the last can be followed by a newline and a separator. */
  ghost predicate Rejoinable(statements: seq<string>) {
    && (forall i | 0 <= i < |statements| :: Statement(statements[i]))
    && (forall i | 0 <= i < |statements| - 1 :: Run(Plain, statements[i] + "\n") == Plain)
  }

  /** A quiet text between spaces: its core is quiet, and if the text ends outside, a newline brings the core back. */
  lemma CoreOfSegment(before: string, core: string, after: string)
    requires AllSpace(before) && AllSpace(after) && Quiet(Plain, before + (core + after))
    ensures Quiet(Plain, core)
    ensures Outside(Run(Plain, before + (core + after))) ==> Run(Plain, core + "\n") == Plain
  {
    SpacesStayPlain(before);
    RunAppend(Plain, before, core + after);
    RunAppend(Plain, core, after);
    RunAppend(Plain, core, "\n");
    if Outside(Run(Plain, before + (core + after))) {
      NewlineReturns(Run(Plain, core), after);
      assert Run(Run(Plain, core), "\n") == Next(Run(Plain, core), '\n');
    }
  }

  lemma TrimmedSegment(segment: string)
    requires Quiet(Plain, segment)
    ensures Trim(segment) != "" ==> Statement(Trim(segment))
    ensures Outside(Run(Plain, segment)) ==> Run(Plain, Trim(segment) + "\n") == Plain
  {
    var before, after := TrimDecomposes(segment);
    assert segment == before + (Trim(segment) + after);
    CoreOfSegment(before, Trim(segment), after);
  }

  lemma {:induction false} KeptRejoinable(segments: seq<string>)
    requires segments != [] && Cut(Plain, segments)
    ensures Rejoinable(Kept(segments))
  {
    TrimmedSegment(segments[0]);
    if |segments| == 1 {
      assert Kept(segments[1..]) == [];
    } else {
      KeptRejoinable(segments[1..]);
      var tail := Kept(segments[1..]);
      if Trim(segments[0]) != "" {
        var all := [Trim(segments[0])] + tail;
        forall i | 0 <= i < |all|
          ensures Statement(all[i])
          ensures i < |all| - 1 ==> Run(Plain, all[i] + "\n") == Plain
        {
          if i > 0 {
            assert all[i] == tail[i - 1];
          }
        }
      }
    }
  }

  /** A statement between spaces, with its newline, is quiet and ends outside. */
  lemma LineIsQuiet(lead: string, a: string)
    requires AllSpace(lead) && Quiet(Plain, a) && Run(Plain, a + "\n") == Plain
    ensures Quiet(Plain, lead + (a + "\n")) && Run(Plain, lead + (a + "\n")) == Plain
  {
    SpacesStayPlain(lead);
    assert !Splits(Run(Plain, a), '\n');
    assert Quiet(Run(Plain, a), "\n");
    RunAppend(Plain, a, "\n");
    RunAppend(Plain, lead, a + "\n");
  }

  lemma RegroupStep(lead: string, a: string, rest: string)
    ensures lead + (a + "\n;\n" + rest) == lead + (a + "\n") + ";" + ("\n" + rest)
    ensures lead + (a + "\n") == lead + a + "\n"
  {
    assert "\n;\n" == "\n" + ";" + "\n";
  }

  lemma RejoinStep(lead: string, a: string, rest: string)
    requires AllSpace(lead) && Statement(a) && Run(Plain, a + "\n") == Plain
    ensures Kept(Segments(Plain, lead + (a + "\n;\n" + rest))) == [a] + Kept(Segments(Plain, "\n" + rest))
  {
    var segment, more := lead + (a + "\n"), "\n" + rest;
    LineIsQuiet(lead, a);
    QuietThenCut(Plain, segment, more);
    RegroupStep(lead, a, rest);
    TrimRemoves(lead, a, "\n");
    KeptFirst(segment, a, Segments(Plain, more));
  }

  lemma KeptFirst(segment: string, a: string, rest: seq<string>)
    requires Trim(segment) == a && a != ""
    ensures Kept([segment] + rest) == [a] + Kept(rest)
  {
    assert ([segment] + rest)[1..] == rest;
  }

  /** `lead` stands for the newline that the separator before this statement brought. */
  lemma {:induction false} SplitRejoined(lead: string, statements: seq<string>)
    requires Rejoinable(statements) && AllSpace(lead)
    ensures Kept(Segments(Plain, lead + Join(statements, "\n;\n"))) == statements
    decreases |statements|
  {
    SpacesStayPlain(lead);
    if statements == [] {
      QuietAlone(Plain, lead);
      assert lead + "" == lead;
      TrimRemoves(lead, "", "");
      assert lead + "" + "" == lead;
    } else {
      var a := statements[0];
      RunAppend(Plain, lead, a);
      if |statements| == 1 {
        QuietAlone(Plain, lead + a);
        TrimRemoves(lead, a, "");
        assert lead + a + "" == lead + a;
        assert Kept([lead + a]) == [a];
      } else {
        RejoinStep(lead, a, Join(statements[1..], "\n;\n"));
        forall i | 0 <= i < |statements[1..]|
          ensures Statement(statements[1..][i])
        {
          assert statements[1..][i] == statements[i + 1];
        }
        SplitRejoined("\n", statements[1..]);
      }
    }
  }

  /** Round trip: splitting the statements of any text rejoined with "\n;\n" gives them back. */
  lemma SplitJoinRoundTrip(text: string)
    ensures Statements(Join(Statements(text), "\n;\n")) == Statements(text)
  {
    SegmentsAreCut(Plain, text);
    KeptRejoinable(Segments(Plain, text));
    SplitRejoined("", Statements(text));
    assert "" + Join(Statements(text), "\n;\n") == Join(Statements(text), "\n;\n");
  }

  /** Every statement the splitter returns is, split again, just itself. */
  lemma SplitIsStable(text: string, i: nat)
    requires i < |Statements(text)|
    ensures Statements(Statements(text)[i]) == [Statements(text)[i]]
  {
    SegmentsAreCut(Plain, text);
    KeptRejoinable(Segments(Plain, text));
    var a := Statements(text)[i];
    QuietAlone(Plain, a);
    TrimOfTrimmed(a);
    assert Kept([a]) == [a] + Kept([a][1..]);
  }

  // ------------------------------------- separators inside quotation never cut

  /** A piece of SQL as an author means it. */
  datatype Lexeme =
    | Word(text: string)
    | Quoted(quote: char, body: string)  // any body at all: it is escaped when written
    | Dashes(body: string)               // "-- body" up to the end of its line
    | Hash(body: string)
    | Remark(body: string)               // "/* body */"

  predicate Reserved(c: char) {
    c == ';' || c == '\'' || c == '"' || c == '`' || c == '#'
  }

  predicate IsSign(c: char) {
    c == '-' || c == '/'
  }

  /** What may not follow a sign in a word, lest it open a comment. */
  predicate Joins(c: char) {
    c == '-' || c == '*' || c == '/'
  }

  predicate OrdinaryAt(text: string, i: nat)
    requires i < |text|
  {
    !Reserved(text[i]) && (IsSign(text[i]) ==> i + 1 < |text| && !Joins(text[i + 1]))
  }

  predicate ValidLexeme(l: Lexeme) {
    match l
    case Word(text) =>
      forall i | 0 <= i < |text| :: OrdinaryAt(text, i)
    case Quoted(quote, _) => quote in "'\"`"
    case Dashes(body) => '\n' !in body
    case Hash(body) => '\n' !in body
    case Remark(body) =>
      forall i | 0 <= i < |body| :: body[i] == '*' ==> i + 1 < |body| && body[i + 1] != '/'
  }

  /** Doubles the quote and, in the two string forms, escapes the backslash. */
  function Escape(quote: char, body: string): string {
    if body == "" then ""
    else if body[0] == quote then [quote, quote] + Escape(quote, body[1..])
    else if body[0] == '\\' && quote != '`' then "\\\\" + Escape(quote, body[1..])
    else [body[0]] + Escape(quote, body[1..])
  }

  function Render(l: Lexeme): string {
    match l
    case Word(text) => text
    case Quoted(quote, body) => [quote] + Escape(quote, body) + [quote]
    case Dashes(body) => "-- " + body + "\n"
    case Hash(body) => "#" + body + "\n"
    case Remark(body) => "/*" + body + "*/"
  }

  function RenderAll(ls: seq<Lexeme>): string {
    if ls == [] then "" else Render(ls[0]) + RenderAll(ls[1..])
  }

  /** The states in which a lexeme can begin. */
  predicate Boundary(s: Scan) {
    s.Plain? || s.SingleEnd? || s.DoubleEnd? || s.TickEnd?
  }

  function InsideOf(quote: char): Scan {
    if quote == '\'' then Single else if quote == '"' then Double else Tick
  }

  lemma {:induction false} BodyStaysQuoted(quote: char, body: string)
    requires quote in "'\"`"
    ensures Run(InsideOf(quote), Escape(quote, body)) == InsideOf(quote)
    ensures Quiet(InsideOf(quote), Escape(quote, body))
  {
    if body != "" {
      BodyStaysQuoted(quote, body[1..]);
      var head := if body[0] == quote then [quote, quote]
                  else if body[0] == '\\' && quote != '`' then "\\\\" else [body[0]];
      RunAppend(InsideOf(quote), head, Escape(quote, body[1..]));
      var mid := Next(InsideOf(quote), head[0]);
      if |head| == 2 {
        assert head[1..][1..] == "";
        assert Run(mid, head[1..]) == Next(mid, head[1]);
        assert Quiet(mid, head[1..]);
      } else {
        assert head[1..] == "";
      }
    }
  }

  lemma {:induction false} BodyStaysOnLine(body: string)
    requires '\n' !in body
    ensures Run(Line, body) == Line && Quiet(Line, body)
  {
    if body != "" {
      BodyStaysOnLine(body[1..]);
    }
  }

  lemma {:induction false} BodyStaysInBlock(s: Scan, body: string)
    requires s == Block || (s == BlockStar && !Leads(body, '/') && body != "")
    requires ValidLexeme(Remark(body))
    ensures Run(s, body) == Block && Quiet(s, body)
    decreases body
  {
    if body != "" {
      var tail := body[1..];
      assert forall i | 0 <= i < |tail| :: tail[i] == body[i + 1];
      BodyStaysInBlock(Next(s, body[0]), tail);
    }
  }

  lemma {:induction false} WordStaysOutside(s: Scan, text: string)
    requires ValidLexeme(Word(text))
    requires Boundary(s) || (text != "" && (s == Dash || s == Slash) && !Joins(text[0]))
    ensures Boundary(Run(s, text)) && Quiet(s, text)
    decreases text
  {
    if text != "" {
      var tail := text[1..];
      forall i | 0 <= i < |tail|
        ensures OrdinaryAt(tail, i)
      {
        assert OrdinaryAt(text, i + 1);
      }
      assert OrdinaryAt(text, 0);
      WordStaysOutside(Next(s, text[0]), tail);
    }
  }

  lemma RunOne(s: Scan, c: char)
    ensures Run(s, [c]) == Next(s, c)
    ensures Quiet(s, [c]) <==> !Splits(s, c)
  {
    assert [c][1..] == "";
    assert Quiet(Next(s, c), "");
  }

  /** An opening, a body that stays in one state, and a closing. */
  lemma RunAround(s: Scan, opening: string, body: string, closing: string, inside: Scan)
    requires Run(s, opening) == inside && Quiet(s, opening)
    requires Run(inside, body) == inside && Quiet(inside, body)
    requires Boundary(Run(inside, closing)) && Quiet(inside, closing)
    ensures Boundary(Run(s, opening + body + closing)) && Quiet(s, opening + body + closing)
  {
    RunAppend(s, opening + body, closing);
    RunAppend(s, opening, body);
  }

  lemma LexemeIsQuiet(s: Scan, l: Lexeme)
    requires Boundary(s) && ValidLexeme(l)
    ensures Boundary(Run(s, Render(l))) && Quiet(s, Render(l))
  {
    match l {
      case Word(text) => WordStaysOutside(s, text);
      case Quoted(quote, body) =>
        BodyStaysQuoted(quote, body);
        RunOne(s, quote);
        RunOne(InsideOf(quote), quote);
        RunAround(s, [quote], Escape(quote, body), [quote], InsideOf(quote));
      case Dashes(body) => DashesAreQuiet(s, body);
      case Hash(body) =>
        BodyStaysOnLine(body);
        RunOne(s, '#');
        RunOne(Line, '\n');
        RunAround(s, "#", body, "\n", Line);
      case Remark(body) => RemarkIsQuiet(s, body);
    }
  }

  lemma DashesAreQuiet(s: Scan, body: string)
    requires Boundary(s) && '\n' !in body
    ensures Boundary(Run(s, Render(Dashes(body)))) && Quiet(s, Render(Dashes(body)))
  {
    BodyStaysOnLine(body);
    RunOne(Line, '\n');
    RunOne(s, '-');
    RunOne(Dash, '-');
    RunOne(DashDash, ' ');
    RunAppend(s, "-", "- ");
    RunAppend(Dash, "-", " ");
    assert "-" + "- " == "-- " && "-" + " " == "- ";
    RunAround(s, "-- ", body, "\n", Line);
  }

  lemma RemarkIsQuiet(s: Scan, body: string)
    requires Boundary(s) && ValidLexeme(Remark(body))
    ensures Boundary(Run(s, Render(Remark(body)))) && Quiet(s, Render(Remark(body)))
  {
    BodyStaysInBlock(Block, body);
    RunOne(s, '/');
    RunOne(Slash, '*');
    RunOne(Block, '*');
    RunOne(BlockStar, '/');
    RunAppend(s, "/", "*");
    RunAppend(Block, "*", "/");
    assert "/" + "*" == "/*" && "*" + "/" == "*/";
    RunAround(s, "/*", body, "*/", Block);
  }

  lemma {:induction false} LexemesAreQuiet(s: Scan, ls: seq<Lexeme>)
    requires Boundary(s) && forall i | 0 <= i < |ls| :: ValidLexeme(ls[i])
    ensures Boundary(Run(s, RenderAll(ls))) && Quiet(s, RenderAll(ls))
    decreases ls
  {
    if ls != [] {
      LexemeIsQuiet(s, ls[0]);
      RunAppend(s, Render(ls[0]), RenderAll(ls[1..]));
      LexemesAreQuiet(Run(s, Render(ls[0])), ls[1..]);
    }
  }

  function Rendered(statements: seq<seq<Lexeme>>): (r: seq<string>)
    ensures |r| == |statements|
    ensures forall i | 0 <= i < |r| :: r[i] == RenderAll(statements[i])
  {
    seq(|statements|, i requires 0 <= i < |statements| => RenderAll(statements[i]))
  }

  /**
   Statements written as lexemes and separated by semicolons come back as
   written: the separators cut, and no semicolon in a string, a quoted name or a
   comment does, whatever the strings and comments hold.
   */
  lemma {:induction false} QuotedSemicolonsNeverSplit(statements: seq<seq<Lexeme>>)
    requires forall i, j | 0 <= i < |statements| && 0 <= j < |statements[i]| :: ValidLexeme(statements[i][j])
    ensures Statements(Join(Rendered(statements), ";")) == Kept(Rendered(statements))
    decreases |statements|
  {
    var parts := Rendered(statements);
    if statements == [] {
      assert Segments(Plain, "") == [""];
    } else {
      LexemesAreQuiet(Plain, statements[0]);
      if |statements| == 1 {
        QuietAlone(Plain, parts[0]);
        assert parts == [parts[0]];
      } else {
        var tail := statements[1..];
        assert forall i | 0 <= i < |tail| :: tail[i] == statements[i + 1];
        assert parts[1..] == Rendered(tail);
        QuietThenCut(Plain, parts[0], Join(parts[1..], ";"));
        QuotedSemicolonsNeverSplit(tail);
        var segments := Segments(Plain, Join(parts, ";"));
        assert segments[1..] == Segments(Plain, Join(parts[1..], ";"));
      }
    }
  }
}
