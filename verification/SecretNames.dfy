/** The names of runtime secrets: the printers, the parser and which kind of profile may refer to which name. */
module SecretNames {
  import opened Text

  datatype Kind = DiscordConfig | Encoder | Archive | YouTubeOutput | Overlay | Caption

  /** The three secrets that live in the integration store. */
  datatype Secret = FolderID | ClientSecret | RefreshToken

  /** A parsed integration secret name. */
  datatype Named = Named(secret: Secret, id: string)

  function Owner(s: Secret): string {
    match s
    case FolderID => "drive_destination"
    case ClientSecret => "oauth_provider"
    case RefreshToken => "oauth_account"
  }

  function Field(s: Secret): string {
    match s
    case FolderID => "folder_id"
    case ClientSecret => "client_secret"
    case RefreshToken => "refresh_token"
  }

  /** The three printers. */
  function PrintName(s: Secret, id: string): string {
    Owner(s) + ":" + Trim(id) + ":" + Field(s)
  }

  // ------------------------------------------------------------------ the parser

  /** strings.Split at a colon. */
  function SplitColons(s: string): (r: seq<string>)
    ensures r != []
  {
    if s == "" then [""]
    else if s[0] == ':' then [""] + SplitColons(s[1..])
    else
      var rest := SplitColons(s[1..]);
      [[s[0]] + rest[0]] + rest[1..]
  }

  function SecretOf(owner: string, field: string): Option<Secret> {
    var key := owner + ":" + field;
    if key == "drive_destination" + ":" + "folder_id" then Some(FolderID)
    else if key == "oauth_provider" + ":" + "client_secret" then Some(ClientSecret)
    else if key == "oauth_account" + ":" + "refresh_token" then Some(RefreshToken)
    else None
  }

  function ParseName(name: string): Option<Named> {
    var parts := SplitColons(Trim(name));
    if |parts| != 3 then None
    else
      var owner, id, field := Trim(parts[0]), Trim(parts[1]), Trim(parts[2]);
      if owner == "" || id == "" || field == "" then None
      else if SecretOf(owner, field).None? then None
      else Some(Named(SecretOf(owner, field).value, id))
  }

  lemma {:induction false} SplitOne(a: string)
    requires ':' !in a
    ensures SplitColons(a) == [a]
  {
    if a != "" {
      SplitOne(a[1..]);
      assert [a[0]] + a[1..] == a;
    }
  }

  lemma {:induction false} SplitFirst(a: string, b: string)
    requires ':' !in a
    ensures SplitColons(a + ":" + b) == [a] + SplitColons(b)
  {
    var s := a + ":" + b;
    if a == "" {
      assert s[1..] == b;
    } else {
      SplitFirst(a[1..], b);
      assert s[1..] == a[1..] + ":" + b && s[0] == a[0] && a[0] in a;
      assert [a[0]] + a[1..] == a;
    }
  }

  lemma SplitThree(a: string, b: string, c: string)
    requires ':' !in a && ':' !in b && ':' !in c
    ensures SplitColons(a + ":" + b + ":" + c) == [a, b, c]
  {
    assert a + ":" + b + ":" + c == a + ":" + (b + ":" + c);
    SplitFirst(a, b + ":" + c);
    SplitFirst(b, c);
    SplitOne(c);
  }

  predicate CleanWord(s: string) {
    s != "" && ':' !in s && Trimmed(s)
  }

  lemma OwnersAndFieldsAreClean(s: Secret)
    ensures CleanWord(Owner(s)) && CleanWord(Field(s))
  {
    match s
    case FolderID =>
      assert forall i | 0 <= i < |Owner(s)| :: Owner(s)[i] != ':';
      assert forall i | 0 <= i < |Field(s)| :: Field(s)[i] != ':';
    case ClientSecret =>
      assert forall i | 0 <= i < |Owner(s)| :: Owner(s)[i] != ':';
      assert forall i | 0 <= i < |Field(s)| :: Field(s)[i] != ':';
    case RefreshToken =>
      assert forall i | 0 <= i < |Owner(s)| :: Owner(s)[i] != ':';
      assert forall i | 0 <= i < |Field(s)| :: Field(s)[i] != ':';
  }

  lemma SecretOfOwn(s: Secret)
    ensures SecretOf(Owner(s), Field(s)) == Some(s)
  {
    var a, b, c := "drive_destination" + ":" + "folder_id", "oauth_provider" + ":" + "client_secret", "oauth_account" + ":" + "refresh_token";
    assert a[0] == 'd' && b[0] == c[0] == 'o';
    assert |b| != |c|;
  }

  lemma WordsInName(a: string, b: string, c: string)
    requires CleanWord(a) && CleanWord(b) && CleanWord(c)
    ensures Trim(a + ":" + b + ":" + c) == a + ":" + b + ":" + c
    ensures SplitColons(a + ":" + b + ":" + c) == [a, b, c]
    ensures Trim(a) == a && Trim(b) == b && Trim(c) == c
  {
    var s := a + ":" + b + ":" + c;
    assert s[0] == a[0] && s[|s| - 1] == c[|c| - 1];
    TrimOfTrimmed(s);
    SplitThree(a, b, c);
  }

  /** A printed name parses back to what was printed, for an id without colons and outer spaces. */
  lemma ParseAfterPrint(s: Secret, id: string)
    requires CleanWord(id)
    ensures ParseName(PrintName(s, id)) == Some(Named(s, id))
    ensures Trim(PrintName(s, id)) == PrintName(s, id)
  {
    OwnersAndFieldsAreClean(s);
    WordsInName(Owner(s), id, Field(s));
    SecretOfOwn(s);
  }

  /** Different secrets or ids have different names. */
  lemma NamesAreDistinct(s: Secret, id: string, t: Secret, other: string)
    requires CleanWord(id) && CleanWord(other)
    ensures PrintName(s, id) == PrintName(t, other) <==> s == t && id == other
  {
    ParseAfterPrint(s, id);
    ParseAfterPrint(t, other);
  }

  lemma {:induction false} PartsHaveNoColon(s: string, i: nat)
    requires i < |SplitColons(s)|
    ensures ':' !in SplitColons(s)[i]
  {
    if s != "" {
      var rest := SplitColons(s[1..]);
      if s[0] == ':' {
        if i > 0 {
          PartsHaveNoColon(s[1..], i - 1);
        }
      } else {
        PartsHaveNoColon(s[1..], i);
      }
    }
  }

  /** What the parser accepts can be printed and parsed again: every spelling of a name has one meaning. */
  lemma PrintAfterParse(name: string)
    requires ParseName(name).Some?
    ensures var n := ParseName(name).value; CleanWord(n.id) && ParseName(PrintName(n.secret, n.id)) == Some(n)
  {
    var parts := SplitColons(Trim(name));
    PartsHaveNoColon(Trim(name), 1);
    var before, after := TrimDecomposes(parts[1]);
    var id := Trim(parts[1]);
    assert forall c | c in id :: c in parts[1];
    ParseAfterPrint(ParseName(name).value.secret, id);
  }

  // ------------------------------------------------------------- kinds and names

  predicate NameOrPrefix(name: string, base: string) {
    name == base || HasPrefix(name, base + "_")
  }

  /** Which plain names a profile of a kind may refer to. */
  predicate PlainNameAllowed(kind: Kind, name: string) {
    match kind
    case DiscordConfig => NameOrPrefix(name, "discord_bot_token")
    case YouTubeOutput => NameOrPrefix(name, "youtube_stream_key")
    case Archive => NameOrPrefix(name, "google_drive_folder_id") || HasPrefix(name, "google_oauth_refresh_token_")
    case Encoder => HasPrefix(name, "encoder_runtime_secret_")
    case Caption => NameOrPrefix(name, "deepgram_api_key")
    case Overlay => false
  }

  /** Integration names belong to archive profiles. */
  predicate KindAllowsSecret(kind: Kind, secretName: string) {
    var name := Trim(secretName);
    if name == "" then false
    else if ParseName(name).Some? then kind == Archive
    else PlainNameAllowed(kind, name)
  }

  /** Names whose delivery always depends on a stream. */
  predicate StreamScoped(secretName: string) {
    var name := Trim(secretName);
    || NameOrPrefix(name, "youtube_stream_key")
    || HasPrefix(name, "google_oauth_refresh_token_")
    || NameOrPrefix(name, "google_drive_folder_id")
    || NameOrPrefix(name, "deepgram_api_key")
  }

  lemma BaseIsPrefix(name: string, base: string)
    requires NameOrPrefix(name, base)
    ensures base <= name
  {
    if name != base {
      assert base <= base + "_";
    }
  }

  /** A family of names: the base alone, and the base with anything after an underscore. */
  lemma FamilyExactlyWhen(name: string, base: string)
    ensures NameOrPrefix(name, base) <==> name == base || exists rest: string :: name == base + "_" + rest
  {
    var start := base + "_";
    if HasPrefix(name, start) {
      assert name == base + "_" + name[|start|..];
    }
    forall rest: string | name == base + "_" + rest
      ensures HasPrefix(name, start)
    {
      assert name[..|start|] == start;
    }
  }

  /** A name that differs from a base at a place neither is it nor starts with it. */
  lemma NotBase(name: string, base: string, i: nat)
    requires i < |base| && i < |name| && name[i] != base[i]
    ensures !NameOrPrefix(name, base) && !HasPrefix(name, base)
  {
    if NameOrPrefix(name, base) {
      BaseIsPrefix(name, base);
    }
  }

  lemma BotTokenLetter(name: string)
    requires NameOrPrefix(name, "discord_bot_token")
    ensures |name| > 1 && name[1] == 'i'
  {
    BaseIsPrefix(name, "discord_bot_token");
    assert "discord_bot_token"[1] == 'i';
  }

  lemma OtherLetters()
    ensures "youtube_stream_key"[1] == 'o' && "google_drive_folder_id"[1] == 'o'
    ensures "google_oauth_refresh_token_"[1] == 'o' && "deepgram_api_key"[1] == 'e'
  {
  }

  lemma SecondLetterIsNotStreamScoped(name: string)
    requires |name| > 1 && name[1] == 'i'
    ensures !NameOrPrefix(name, "youtube_stream_key") && !HasPrefix(name, "google_oauth_refresh_token_")
    ensures !NameOrPrefix(name, "google_drive_folder_id") && !NameOrPrefix(name, "deepgram_api_key")
  {
    OtherLetters();
    NotBase(name, "youtube_stream_key", 1);
    NotBase(name, "google_oauth_refresh_token_", 1);
    NotBase(name, "google_drive_folder_id", 1);
    NotBase(name, "deepgram_api_key", 1);
  }

  /** A bot token is not tied to a stream. */
  lemma BotTokenIsNotStreamScoped(secretName: string)
    requires KindAllowsSecret(DiscordConfig, secretName)
    ensures !StreamScoped(secretName)
  {
    BotTokenLetter(Trim(secretName));
    SecondLetterIsNotStreamScoped(Trim(secretName));
  }

  lemma CaptionNamesAreStreamScoped(secretName: string)
    requires KindAllowsSecret(Caption, secretName)
    ensures StreamScoped(secretName)
  {
  }

  /** An integration name is never the stream key of a live runtime. */
  lemma PrintedIsNoRuntimeKey(s: Secret, id: string)
    ensures !HasPrefix(PrintName(s, id), "youtube_stream_key_runtime_")
  {
    var name := PrintName(s, id);
    OwnerLetter(s);
    assert name[0] == Owner(s)[0];
    assert "youtube_stream_key_runtime_"[0] == 'y';
    NotBase(name, "youtube_stream_key_runtime_", 0);
  }

  lemma OwnerLetter(s: Secret)
    ensures Owner(s) != "" && Owner(s)[0] in {'d', 'o'}
  {
  }

  // ---------------------------------------------------------- one kind per name

  /** What the first letters of a name say about the profiles that may refer to it. */
  function KindByLetters(name: string): Kind {
    if |name| < 2 then Overlay
    else if name[0] == 'y' then YouTubeOutput
    else if name[0] == 'g' then Archive
    else if name[0] == 'e' then Encoder
    else if name[1] == 'i' then DiscordConfig
    else Caption
  }

  lemma BaseKinds()
    ensures KindByLetters("discord_bot_token") == DiscordConfig && KindByLetters("deepgram_api_key") == Caption
    ensures KindByLetters("youtube_stream_key") == YouTubeOutput && KindByLetters("encoder_runtime_secret_") == Encoder
    ensures KindByLetters("google_drive_folder_id") == KindByLetters("google_oauth_refresh_token_") == Archive
  {
  }

  lemma BaseLetters(name: string, base: string)
    requires |base| > 1 && (NameOrPrefix(name, base) || HasPrefix(name, base))
    ensures KindByLetters(name) == KindByLetters(base)
  {
    if NameOrPrefix(name, base) {
      BaseIsPrefix(name, base);
    }
  }

  lemma ArchiveLetters(name: string)
    requires PlainNameAllowed(Archive, name)
    ensures KindByLetters(name) == Archive
  {
    BaseKinds();
    if HasPrefix(name, "google_oauth_refresh_token_") {
      BaseLetters(name, "google_oauth_refresh_token_");
    } else {
      BaseLetters(name, "google_drive_folder_id");
    }
  }

  lemma PlainNameHasLetters(kind: Kind, name: string)
    requires PlainNameAllowed(kind, name)
    ensures kind == KindByLetters(name) != Overlay
  {
    BaseKinds();
    match kind
    case DiscordConfig => BaseLetters(name, "discord_bot_token");
    case YouTubeOutput => BaseLetters(name, "youtube_stream_key");
    case Archive => ArchiveLetters(name);
    case Encoder => BaseLetters(name, "encoder_runtime_secret_");
    case Caption => BaseLetters(name, "deepgram_api_key");
  }

  /** A name belongs to at most one kind of profile, and never to an overlay. */
  lemma OneKindPerName(secretName: string, a: Kind, b: Kind)
    requires KindAllowsSecret(a, secretName) && KindAllowsSecret(b, secretName)
    ensures a == b != Overlay
  {
    if ParseName(Trim(secretName)).None? {
      PlainNameHasLetters(a, Trim(secretName));
      PlainNameHasLetters(b, Trim(secretName));
    }
  }
}
