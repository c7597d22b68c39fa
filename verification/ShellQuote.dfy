/**
 The configure command shown to an operator, read back by the quoting rules of
 sections 2.2.1 to 2.2.3 of the POSIX.1-2017 Shell Command Language.
 */
module ShellQuote {
  import opened Text

  // ---------------------------------------------------------------- the shell

  /** Inside which quoting the shell reads. */
  datatype Quoting = Bare | Escaped | Single | Double | DoubleEscaped

  /** Characters that end a word or start an expansion, a pattern or an operator when they are not quoted. */
  predicate IsActive(c: char) {
    c in "|&;<>()$`\\\"' \t\n*?[" || c == '\0'
  }

  /** A comment or a tilde expansion, at the start of a word. */
  predicate IsActiveStart(c: char) {
    c == '#' || c == '~'
  }

  function Grow(word: Option<string>, text: string): Option<string> {
    Some(word.GetOr("") + text)
  }

  /**
   The words of one simple command made of literal text: None when a quote is
   left open, when anything would be expanded or is an operator, and when a NUL,
   which no word can hold, is met.
   */
  function Lex(q: Quoting, word: Option<string>, s: string): Option<seq<string>>
    decreases |s|
  {
    if s == "" then
      if !q.Bare? then None else Some(if word.Some? then [word.value] else [])
    else
      var c, rest := s[0], s[1..];
      if c == '\0' then None
      else
        match q
        case Bare =>
          if c == ' ' || c == '\t' then
            var more := Lex(Bare, None, rest);
            if more.None? then None else Some((if word.Some? then [word.value] else []) + more.value)
          else if c == '\'' then Lex(Single, Grow(word, ""), rest)
          else if c == '"' then Lex(Double, Grow(word, ""), rest)
          else if c == '\\' then Lex(Escaped, word, rest)
          else if IsActive(c) || (word.None? && IsActiveStart(c)) then None
          else Lex(Bare, Grow(word, [c]), rest)
        case Escaped => Lex(Bare, if c == '\n' then word else Grow(word, [c]), rest)
        case Single => if c == '\'' then Lex(Bare, word, rest) else Lex(Single, Grow(word, [c]), rest)
        case Double =>
          if c == '"' then Lex(Bare, word, rest)
          else if c == '\\' then Lex(DoubleEscaped, word, rest)
          else if c == '$' || c == '`' then None
          else Lex(Double, Grow(word, [c]), rest)
        case DoubleEscaped =>
          if c == '\n' then Lex(Double, word, rest)
          else Lex(Double, Grow(word, if c in "$`\"\\" then [c] else ['\\', c]), rest)
  }

  function Words(command: string): Option<seq<string>> {
    Lex(Bare, None, command)
  }

  lemma {:induction false} NulIsNoWord(q: Quoting, word: Option<string>, s: string)
    requires '\0' in s
    ensures Lex(q, word, s).None?
    decreases |s|
  {
    var c, rest := s[0], s[1..];
    if c != '\0' {
      assert '\0' in rest;
      NulIsNoWord(Bare, None, rest);
      NulIsNoWord(Bare, word, rest);
      NulIsNoWord(Bare, Grow(word, [c]), rest);
      NulIsNoWord(Escaped, word, rest);
      NulIsNoWord(Single, Grow(word, ""), rest);
      NulIsNoWord(Single, Grow(word, [c]), rest);
      NulIsNoWord(Double, Grow(word, ""), rest);
      NulIsNoWord(Double, Grow(word, [c]), rest);
      NulIsNoWord(Double, word, rest);
      NulIsNoWord(Double, Grow(word, ['\\', c]), rest);
      NulIsNoWord(DoubleEscaped, word, rest);
    }
  }

  /** Text that means itself wherever it stands inside a word. */
  predicate IsLiteral(s: string) {
    forall i | 0 <= i < |s| :: s[i] != '\0' && s[i] !in " \t'\"\\" && s[i] !in "|&;<>()$`\n*?["
  }

  lemma LiteralChar(c: char)
    ensures IsActive(c) <==> c == '\0' || c in " \t'\"\\" || c in "|&;<>()$`\n*?["
  {
    var all, quotes, operators := "|&;<>()$`\\\"' \t\n*?[", " \t'\"\\", "|&;<>()$`\n*?[";
    assert all == operators[..9] + ['\\', '"', '\'', ' ', '\t'] + operators[9..];
  }

  lemma {:induction false} LiteralIsRead(w: string, s: string, rest: string)
    requires IsLiteral(s)
    ensures Lex(Bare, Some(w), s + rest) == Lex(Bare, Some(w + s), rest)
    decreases |s|
  {
    if s == "" {
      assert s + rest == rest && w + s == w;
    } else {
      LiteralChar(s[0]);
      assert (s + rest)[0] == s[0] && (s + rest)[1..] == s[1..] + rest;
      LiteralIsRead(w + [s[0]], s[1..], rest);
      assert w + [s[0]] + s[1..] == w + s;
    }
  }

  /** Why values are quoted: after literal text an operator, a pattern or an expansion makes the command something else. */
  lemma OperatorsAreRefused(w: string, s: string, c: char, rest: string)
    requires IsLiteral(s) && c in "|&;<>()$`\n*?["
    ensures Lex(Bare, Some(w), s + [c] + rest).None?
  {
    LiteralIsRead(w, s, [c] + rest);
    assert s + [c] + rest == s + ([c] + rest);
    assert ([c] + rest)[0] == c;
    LiteralChar(c);
    OperatorIsNoQuote(c);
  }

  lemma OperatorIsNoQuote(c: char)
    requires c in "|&;<>()$`\n*?["
    ensures c !in " \t'\"\\"
  {
  }

  /** At the start of a word a hash or a tilde is refused, inside one both are literal. */
  lemma StartsAreRefused(c: char, s: string)
    ensures c == '#' || c == '~' ==> Words([c] + s).None?
    ensures IsLiteral([c] + s) && c != '#' && c != '~' ==> Words([c] + s) == Some([[c] + s])
  {
    var all := [c] + s;
    assert all[0] == c && all[1..] == s;
    LiteralChar(c);
    if IsLiteral(all) && c != '#' && c != '~' {
      assert forall i | 0 <= i < |s| :: s[i] == all[i + 1];
      LiteralIsRead([c], s, "");
      assert s + "" == s;
      assert "" + [c] == [c];
    }
  }

  // ----------------------------------------------------------------- the quoting

  /** strings.ReplaceAll of a single quote: close, a double-quoted single quote, open again. */
  function EscapeQuotes(value: string): string {
    if value == "" then ""
    else (if value[0] == '\'' then "'\"'\"'" else [value[0]]) + EscapeQuotes(value[1..])
  }

  function PosixShellQuote(value: string): string {
    "'" + EscapeQuotes(value) + "'"
  }

  /** Five characters of the replacement take the shell out of the quotes, over one quote and back in. */
  lemma QuoteInside(w: string, rest: string)
    ensures Lex(Single, Some(w), "'\"'\"'" + rest) == Lex(Single, Some(w + "'"), rest)
  {
    var s := "'\"'\"'" + rest;
    assert s[1..] == "\"'\"'" + rest;
    assert s[1..][1..] == "'\"'" + rest;
    assert s[1..][1..][1..] == "\"'" + rest;
    assert s[1..][1..][1..][1..] == "'" + rest;
    assert s[1..][1..][1..][1..][1..] == rest;
    assert Lex(Single, Some(w), s) == Lex(Bare, Some(w), s[1..]);
    assert w + "" == w;
    assert Lex(Bare, Some(w), s[1..]) == Lex(Double, Some(w), s[1..][1..]);
    assert Lex(Double, Some(w), s[1..][1..]) == Lex(Double, Some(w + "'"), s[1..][1..][1..]);
    assert w + "'" + "" == w + "'";
    assert Lex(Double, Some(w + "'"), s[1..][1..][1..]) == Lex(Bare, Some(w + "'"), s[1..][1..][1..][1..]);
  }

  lemma {:induction false} BodyIsRead(value: string, w: string, rest: string)
    requires '\0' !in value
    ensures Lex(Single, Some(w), EscapeQuotes(value) + "'" + rest) == Lex(Bare, Some(w + value), rest)
  {
    var tail := "'" + rest;
    assert EscapeQuotes(value) + "'" + rest == EscapeQuotes(value) + tail;
    if value == "" {
      assert EscapeQuotes(value) + tail == tail && tail[1..] == rest && w + value == w;
    } else {
      var c, more := value[0], EscapeQuotes(value[1..]) + "'" + rest;
      BodyIsRead(value[1..], w + [c], rest);
      assert w + [c] + value[1..] == w + value;
      if c == '\'' {
        QuoteInside(w, more);
        assert EscapeQuotes(value) + "'" + rest == "'\"'\"'" + more;
      } else {
        assert EscapeQuotes(value) + "'" + rest == [c] + more;
        assert ([c] + more)[1..] == more;
      }
    }
  }

  /** In any command, after any start of a word, the quoted value adds exactly the value to that word. */
  lemma QuotedValueIsRead(value: string, word: Option<string>, rest: string)
    requires '\0' !in value
    ensures Lex(Bare, word, PosixShellQuote(value) + rest) == Lex(Bare, Grow(word, value), rest)
  {
    var s := PosixShellQuote(value) + rest;
    assert s[0] == '\'' && s[1..] == EscapeQuotes(value) + "'" + rest;
    var w := word.GetOr("");
    BodyIsRead(value, w, rest);
    assert w + "" == w;
  }

  lemma {:induction false} EscapeKeepsNul(value: string)
    requires '\0' in value
    ensures '\0' in EscapeQuotes(value)
  {
    if value[0] != '\0' {
      EscapeKeepsNul(value[1..]);
    }
  }

  /** The quoted value is exactly one word, the value, if and only if the value has no NUL. */
  lemma QuotedValueIsOneWord(value: string)
    ensures Words(PosixShellQuote(value)) == Some([value]) <==> '\0' !in value
  {
    if '\0' in value {
      EscapeKeepsNul(value);
      NulIsNoWord(Bare, None, PosixShellQuote(value));
    } else {
      QuotedValueIsRead(value, None, "");
      assert PosixShellQuote(value) + "" == PosixShellQuote(value) && "" + value == value;
    }
  }

  // ------------------------------------------------------------ whole commands

  /** A part of a command line: fixed text, or a quoted value. */
  datatype Part = Fixed(text: string) | Quoted(text: string) {
    function Shown(): string {
      if Fixed? then text else PosixShellQuote(text)
    }
    predicate Readable() {
      if Fixed? then IsPlainWord(text) else '\0' !in text
    }
  }

  predicate IsPlainChar(c: char) {
    'a' <= c <= 'z' || c == '-' || c == '/'
  }

  predicate IsPlainWord(s: string) {
    s != "" && forall i | 0 <= i < |s| :: IsPlainChar(s[i])
  }

  function CommandLine(parts: seq<Part>): string {
    if parts == [] then ""
    else if |parts| == 1 then parts[0].Shown()
    else parts[0].Shown() + " " + CommandLine(parts[1..])
  }

  function Texts(parts: seq<Part>): (r: seq<string>)
    ensures |r| == |parts| && forall i | 0 <= i < |r| :: r[i] == parts[i].text
  {
    seq(|parts|, i requires 0 <= i < |parts| => parts[i].text)
  }

  lemma {:induction false} PlainWordIsRead(s: string, word: Option<string>, rest: string)
    requires forall i | 0 <= i < |s| :: IsPlainChar(s[i])
    requires s != "" || word.Some?
    ensures Lex(Bare, word, s + rest) == Lex(Bare, Grow(word, s), rest)
    decreases |s|
  {
    if s == "" {
      assert s + rest == rest && word.value + s == word.value;
    } else {
      var t := s + rest;
      assert t[0] == s[0] && t[1..] == s[1..] + rest;
      assert IsPlainChar(s[0]) && !IsActive(s[0]);
      PlainWordIsRead(s[1..], Grow(word, [s[0]]), rest);
      assert word.GetOr("") + [s[0]] + s[1..] == word.GetOr("") + s;
    }
  }

  lemma PartIsRead(p: Part, rest: string)
    requires p.Readable()
    ensures Lex(Bare, None, p.Shown() + rest) == Lex(Bare, Some(p.text), rest)
  {
    assert "" + p.text == p.text;
    if p.Fixed? {
      PlainWordIsRead(p.text, None, rest);
    } else {
      QuotedValueIsRead(p.text, None, rest);
    }
  }

  /** A space ends the word. */
  lemma SpaceEndsWord(w: string, rest: string, words: seq<string>)
    requires Words(rest) == Some(words)
    ensures Lex(Bare, Some(w), " " + rest) == Some([w] + words)
  {
    assert (" " + rest)[0] == ' ' && (" " + rest)[1..] == rest;
  }

  lemma SpaceBetween(a: string, rest: string)
    ensures a + " " + rest == a + (" " + rest)
  {
  }

  lemma NextPartIsRead(p: Part, rest: string, words: seq<string>)
    requires p.Readable() && Words(rest) == Some(words)
    ensures Words(p.Shown() + " " + rest) == Some([p.text] + words)
  {
    SpaceBetween(p.Shown(), rest);
    PartIsRead(p, " " + rest);
    SpaceEndsWord(p.text, rest, words);
  }

  /** A command line of readable parts is read as the texts of its parts. */
  lemma {:induction false} CommandLineIsRead(parts: seq<Part>)
    requires forall i | 0 <= i < |parts| :: parts[i].Readable()
    ensures Words(CommandLine(parts)) == Some(Texts(parts))
  {
    if parts == [] {
    } else if |parts| == 1 {
      PartIsRead(parts[0], "");
      assert parts[0].Shown() + "" == parts[0].Shown();
      assert Texts(parts) == [parts[0].text];
    } else {
      CommandLineIsRead(parts[1..]);
      NextPartIsRead(parts[0], CommandLine(parts[1..]), Texts(parts[1..]));
      assert Texts(parts) == [parts[0].text] + Texts(parts[1..]);
    }
  }

  lemma {:induction false} CommandLineKeepsNul(parts: seq<Part>, i: nat)
    requires i < |parts| && parts[i].Quoted? && '\0' in parts[i].text
    ensures '\0' in CommandLine(parts)
  {
    if i == 0 {
      EscapeKeepsNul(parts[0].text);
    } else {
      CommandLineKeepsNul(parts[1..], i - 1);
    }
  }

  // ------------------------------------------------------- the configure command

  function ConfigureBinary(serviceType: string): string {
    if serviceType == "update_agent" then "/usr/local/bin/autostream-host-agent"
    else if serviceType == "encoder_recorder" then "autostream-encoder-recorder"
    else if serviceType == "discord_bot" then "autostream-discord-bot"
    else if serviceType == "observability" then "autostream-observability"
    else "autostream-worker"
  }

  /** Every service type has its own binary. */
  lemma BinaryTellsTypesApart(a: string, b: string)
    requires a in {"update_agent", "encoder_recorder", "discord_bot", "observability", "worker"}
    requires b in {"update_agent", "encoder_recorder", "discord_bot", "observability", "worker"}
    ensures ConfigureBinary(a) == ConfigureBinary(b) <==> a == b
  {
    BinaryLength(a);
    BinaryLength(b);
  }

  lemma BinaryLength(a: string)
    requires a in {"update_agent", "encoder_recorder", "discord_bot", "observability", "worker"}
    ensures a == "update_agent" <==> |ConfigureBinary(a)| == 36
    ensures a == "encoder_recorder" <==> |ConfigureBinary(a)| == 27
    ensures a == "discord_bot" <==> |ConfigureBinary(a)| == 22
    ensures a == "observability" <==> |ConfigureBinary(a)| == 24
    ensures a == "worker" <==> |ConfigureBinary(a)| == 17
  {
  }

  /** The command as the handler concatenates it, from the values it has resolved. */
  function NodeConfigureCommand(serviceType: string, panelURL: string, token: string, node: string, config: string): string {
    if serviceType == "update_agent" then
      "sudo " + ConfigureBinary(serviceType) + " configure --panel-url " + PosixShellQuote(panelURL) +
      " --node " + PosixShellQuote(node) +
      " --config " + PosixShellQuote(config)
    else
      "sudo " + ConfigureBinary(serviceType) + " configure --panel-url " + PosixShellQuote(panelURL) +
      " --token " + PosixShellQuote(token) +
      " --node " + PosixShellQuote(node) +
      " --config " + PosixShellQuote(config)
  }

  /** The argument list it is meant to be; the host agent is never given the token. */
  function IntendedArguments(serviceType: string, panelURL: string, token: string, node: string, config: string): seq<string> {
    ["sudo", ConfigureBinary(serviceType), "configure", "--panel-url", panelURL]
    + (if serviceType == "update_agent" then [] else ["--token", token])
    + ["--node", node, "--config", config]
  }

  function CommandParts(serviceType: string, panelURL: string, token: string, node: string, config: string): seq<Part> {
    [Fixed("sudo"), Fixed(ConfigureBinary(serviceType)), Fixed("configure"), Fixed("--panel-url"), Quoted(panelURL)]
    + (if serviceType == "update_agent" then [] else [Fixed("--token"), Quoted(token)])
    + [Fixed("--node"), Quoted(node), Fixed("--config"), Quoted(config)]
  }

  lemma LineCons(p: Part, parts: seq<Part>)
    requires parts != []
    ensures CommandLine([p] + parts) == p.Shown() + " " + CommandLine(parts)
  {
    assert ([p] + parts)[1..] == parts;
  }

  lemma Pair<T>(a: T, b: T, tail: seq<T>)
    ensures [a, b] + tail == [a] + ([b] + tail)
  {
  }

  lemma FlattenPair(a: string, b: string, rest: string)
    ensures a + " " + (b + " " + rest) == a + " " + b + " " + rest
  {
  }

  lemma PairIsParts(a: Part, b: Part, tail: seq<Part>)
    requires tail != []
    ensures CommandLine([a, b] + tail) == a.Shown() + " " + b.Shown() + " " + CommandLine(tail)
  {
    LineCons(b, tail);
    LineCons(a, [b] + tail);
    Pair(a, b, tail);
    FlattenPair(a.Shown(), b.Shown(), CommandLine(tail));
  }

  lemma Flatten(a: string, b: string, c: string, d: string, e: string, rest: string)
    ensures a + " " + b + " " + (c + " " + d + " " + (e + " " + rest))
         == a + " " + b + " " + c + " " + d + " " + e + " " + rest
  {
  }

  lemma FiveParts<T>(a: T, b: T, c: T, d: T, e: T, tail: seq<T>)
    ensures [a, b, c, d, e] + tail == [a, b] + ([c, d] + ([e] + tail))
  {
  }

  /** The first five parts of a line. */
  lemma HeadIsParts(a: Part, b: Part, c: Part, d: Part, e: Part, tail: seq<Part>)
    requires tail != []
    ensures CommandLine([a, b, c, d, e] + tail)
         == a.Shown() + " " + b.Shown() + " " + c.Shown() + " " + d.Shown() + " " + e.Shown() + " " + CommandLine(tail)
  {
    LineCons(e, tail);
    PairIsParts(c, d, [e] + tail);
    PairIsParts(a, b, [c, d] + ([e] + tail));
    FiveParts(a, b, c, d, e, tail);
    Flatten(a.Shown(), b.Shown(), c.Shown(), d.Shown(), e.Shown(), CommandLine(tail));
  }

  lemma TailIsParts(a: Part, b: Part, c: Part, d: Part)
    ensures CommandLine([a, b, c, d]) == a.Shown() + " " + b.Shown() + " " + c.Shown() + " " + d.Shown()
  {
    LineCons(c, [d]);
    PairIsParts(a, b, [c, d]);
    TwoAndTwo(a, b, c, d);
    FlattenTail(a.Shown(), b.Shown(), c.Shown(), d.Shown());
  }

  lemma TwoAndTwo<T>(a: T, b: T, c: T, d: T)
    ensures [c] + [d] == [c, d] && [a, b] + [c, d] == [a, b, c, d]
  {
  }

  lemma FlattenTail(a: string, b: string, c: string, d: string)
    ensures a + " " + b + " " + (c + " " + d) == a + " " + b + " " + c + " " + d
  {
  }

  /** Regrouping the words the handler writes as one literal. */
  lemma Regroup(sudo: string, binary: string, configure: string, flag: string, value: string, rest: string)
    ensures sudo + " " + binary + " " + configure + " " + flag + " " + value + " " + rest
         == (sudo + " ") + binary + (" " + configure + " " + flag + " ") + value + (" " + rest)
  {
  }

  lemma RegroupPair(first: string, flag: string, value: string, rest: string)
    ensures first + (" " + (flag + " " + value + " " + rest)) == first + (" " + flag + " ") + value + (" " + rest)
  {
  }

  lemma RegroupTail(first: string, a: string, b: string, c: string, d: string)
    ensures first + (" " + (a + " " + b + " " + c + " " + d)) == first + (" " + a + " ") + b + (" " + c + " ") + d
  {
  }

  lemma Literals()
    ensures "sudo" + " " == "sudo " && " " + "configure" + " " + "--panel-url" + " " == " configure --panel-url "
    ensures " " + "--token" + " " == " --token "
    ensures " " + "--node" + " " == " --node " && " " + "--config" + " " == " --config "
  {
  }

  /** What the handler concatenates is its parts with one space between them. */
  lemma CommandIsParts(serviceType: string, panelURL: string, token: string, node: string, config: string)
    ensures NodeConfigureCommand(serviceType, panelURL, token, node, config)
         == CommandLine(CommandParts(serviceType, panelURL, token, node, config))
  {
    Literals();
    var tail := [Fixed("--node"), Quoted(node), Fixed("--config"), Quoted(config)];
    var t, p, n, c := PosixShellQuote(token), PosixShellQuote(panelURL), PosixShellQuote(node), PosixShellQuote(config);
    var binary := ConfigureBinary(serviceType);
    var first := "sudo " + binary + " configure --panel-url " + p;
    TailIsParts(tail[0], tail[1], tail[2], tail[3]);
    if serviceType == "update_agent" {
      HeadIsParts(Fixed("sudo"), Fixed(binary), Fixed("configure"), Fixed("--panel-url"), Quoted(panelURL), tail);
      Regroup("sudo", binary, "configure", "--panel-url", p, CommandLine(tail));
      RegroupTail(first, "--node", n, "--config", c);
      assert CommandParts(serviceType, panelURL, token, node, config)
          == [Fixed("sudo"), Fixed(binary), Fixed("configure"), Fixed("--panel-url"), Quoted(panelURL)] + tail;
    } else {
      var middle := [Fixed("--token"), Quoted(token)] + tail;
      PairIsParts(Fixed("--token"), Quoted(token), tail);
      HeadIsParts(Fixed("sudo"), Fixed(binary), Fixed("configure"), Fixed("--panel-url"), Quoted(panelURL), middle);
      Regroup("sudo", binary, "configure", "--panel-url", p, CommandLine(middle));
      RegroupPair(first, "--token", t, CommandLine(tail));
      RegroupTail(first + " --token " + t, "--node", n, "--config", c);
      assert CommandParts(serviceType, panelURL, token, node, config)
          == [Fixed("sudo"), Fixed(binary), Fixed("configure"), Fixed("--panel-url"), Quoted(panelURL)] + middle;
    }
  }

  lemma PlainAppend(a: string, b: string)
    requires IsPlainWord(a) && IsPlainWord(b)
    ensures IsPlainWord(a + b)
  {
  }

  lemma HostAgentIsPlain()
    ensures IsPlainWord("/usr/local/bin/autostream-host-agent")
  {
    PlainAppend("/usr/local/bin/", "autostream-host-agent");
    assert "/usr/local/bin/" + "autostream-host-agent" == "/usr/local/bin/autostream-host-agent";
  }

  lemma NodeIsPlain(name: string)
    requires name == "encoder-recorder" || name == "discord-bot" || name == "observability" || name == "worker"
    ensures IsPlainWord("autostream-" + name)
  {
    PlainAppend("autostream-", name);
  }

  lemma BinaryIsPlain(serviceType: string)
    ensures IsPlainWord(ConfigureBinary(serviceType))
  {
    HostAgentIsPlain();
    NodeIsPlain("encoder-recorder");
    NodeIsPlain("discord-bot");
    NodeIsPlain("observability");
    NodeIsPlain("worker");
    assert "autostream-" + "encoder-recorder" == "autostream-encoder-recorder";
    assert "autostream-" + "discord-bot" == "autostream-discord-bot";
    assert "autostream-" + "observability" == "autostream-observability";
    assert "autostream-" + "worker" == "autostream-worker";
  }

  lemma FlagsArePlain()
    ensures IsPlainWord("sudo") && IsPlainWord("configure") && IsPlainWord("--panel-url")
    ensures IsPlainWord("--token") && IsPlainWord("--node") && IsPlainWord("--config")
  {
  }

  /** The values a command carries; the host agent's carries no token. */
  predicate HasNul(serviceType: string, panelURL: string, token: string, node: string, config: string) {
    '\0' in panelURL || '\0' in node || '\0' in config || (serviceType != "update_agent" && '\0' in token)
  }

  lemma NulBreaksCommand(serviceType: string, panelURL: string, token: string, node: string, config: string)
    requires HasNul(serviceType, panelURL, token, node, config)
    ensures '\0' in CommandLine(CommandParts(serviceType, panelURL, token, node, config))
  {
    var parts := CommandParts(serviceType, panelURL, token, node, config);
    var n := |parts|;
    assert parts[4] == Quoted(panelURL) && parts[n - 3] == Quoted(node) && parts[n - 1] == Quoted(config);
    assert serviceType != "update_agent" ==> parts[6] == Quoted(token);
    var i := if '\0' in panelURL then 4 else if '\0' in node then n - 3 else if '\0' in config then n - 1 else 6;
    CommandLineKeepsNul(parts, i);
  }

  lemma PartsAreReadable(serviceType: string, panelURL: string, token: string, node: string, config: string)
    requires !HasNul(serviceType, panelURL, token, node, config)
    ensures var parts := CommandParts(serviceType, panelURL, token, node, config);
            && (forall i | 0 <= i < |parts| :: parts[i].Readable())
            && Texts(parts) == IntendedArguments(serviceType, panelURL, token, node, config)
  {
    BinaryIsPlain(serviceType);
    FlagsArePlain();
  }

  /** The configure command is read as exactly the intended arguments, if and only if no value has a NUL. */
  lemma ConfigureCommandIsIntended(serviceType: string, panelURL: string, token: string, node: string, config: string)
    ensures Words(NodeConfigureCommand(serviceType, panelURL, token, node, config))
         == Some(IntendedArguments(serviceType, panelURL, token, node, config))
       <==> !HasNul(serviceType, panelURL, token, node, config)
  {
    var parts := CommandParts(serviceType, panelURL, token, node, config);
    CommandIsParts(serviceType, panelURL, token, node, config);
    if HasNul(serviceType, panelURL, token, node, config) {
      NulBreaksCommand(serviceType, panelURL, token, node, config);
      NulIsNoWord(Bare, None, CommandLine(parts));
    } else {
      PartsAreReadable(serviceType, panelURL, token, node, config);
      CommandLineIsRead(parts);
    }
  }
}
