/**
 The archive configuration a start request carries, and its agreement with the
 secret endpoint: what names it hands out, who may read them and what they give.
 */
module ArchiveSecrets {
  import opened Text
  import opened Profiles
  import opened SecretNames
  import opened RuntimeSecrets
  import opened SecretSoundness

  datatype Failure = ProfileNotFound | DestinationNotFound | DestinationUnavailable | InvalidConfig | AccountUnavailable | StoreFailed

  /** The keys of the configuration. */
  datatype Key =
    | ArchiveProfileID | RetentionDays | DriveDestinationID | AuthMode | OAuthAccountID | FolderIDSecretName | SharedDrive
    | OAuthProviderID | ClientID | ClientSecretSecretName | RefreshTokenSecretName | ArchiveFileName | SharedDriveID

  datatype Setting = Words(text: string) | Number(n: int) | Flag(on: bool)

  /** Settings read from a profile whose normalisation is not modelled. */
  datatype Reader = Reader(retentionDays: Config -> int, fileName: Config -> string)

  /** What the archive profile of a stream leads to in the stores. */
  datatype Chain = Chain(profile: Profile, drive: Option<Drive>)
  datatype Drive = Drive(destination: Destination, account: Account, provider: Provider)

  function CredentialsOf(st: Store, d: Destination): Result<Drive, Failure> {
    var account := st.account(d.oauthAccountID);
    if !account.Found? || Trim(account.value.refreshToken) == "" || !account.value.allowsDrive then Err(AccountUnavailable)
    else
      var provider := st.provider(account.value.providerID);
      if !provider.Found? || Trim(provider.value.clientSecret) == "" then Err(AccountUnavailable)
      else Ok(Drive(d, account.value, provider.value))
  }

  function DriveOf(st: Store, destinationID: string): Result<Drive, Failure> {
    match st.destination(destinationID)
    case Missing => Err(DestinationNotFound)
    case Broken => Err(StoreFailed)
    case Found(d) =>
      if Trim(d.folderID) == "" then Err(DestinationUnavailable)
      else if !EqualFold(Trim(d.authMode), "oauth2") then Err(InvalidConfig)
      else CredentialsOf(st, d)
  }

  function ChainOf(st: Store, profileID: string): Result<Chain, Failure> {
    match st.profile(Archive, profileID)
    case Missing => Err(ProfileNotFound)
    case Broken => Err(StoreFailed)
    case Found(p) =>
      var destinationID := Trim(ConfigString(p.config, "drive_destination_id"));
      if destinationID == "" then Ok(Chain(p, None))
      else
        match DriveOf(st, destinationID)
        case Err(e) => Err(e)
        case Ok(drive) => Ok(Chain(p, Some(drive)))
  }

  function BaseConfig(reader: Reader, p: Profile): map<Key, Setting> {
    map[ArchiveProfileID := Words(p.id)]
    + (if reader.retentionDays(p.config) > 0 then map[RetentionDays := Number(reader.retentionDays(p.config))] else map[])
  }

  function DestinationSettings(d: Destination): map<Key, Setting> {
    map[DriveDestinationID := Words(d.id),
        AuthMode := Words("oauth2"),
        OAuthAccountID := Words(d.oauthAccountID),
        FolderIDSecretName := Words(PrintName(FolderID, d.id)),
        SharedDrive := Flag(d.sharedDrive)]
  }

  function CredentialSettings(a: Account, p: Provider): (r: map<Key, Setting>)
    ensures FolderIDSecretName !in r
  {
    map[OAuthProviderID := Words(p.id),
        ClientID := Words(p.clientID),
        ClientSecretSecretName := Words(PrintName(ClientSecret, p.id)),
        RefreshTokenSecretName := Words(PrintName(RefreshToken, a.id))]
  }

  function OptionalSettings(reader: Reader, c: Config): (r: map<Key, Setting>)
    ensures r.Keys <= {ArchiveFileName, SharedDriveID}
  {
    (if reader.fileName(c) != "" then map[ArchiveFileName := Words(reader.fileName(c))] else map[])
    + (if Trim(ConfigString(c, "shared_drive_id")) != "" then map[SharedDriveID := Words(Trim(ConfigString(c, "shared_drive_id")))] else map[])
  }

  function WithDrive(base: map<Key, Setting>, reader: Reader, p: Profile, x: Drive): map<Key, Setting> {
    base + DestinationSettings(x.destination) + CredentialSettings(x.account, x.provider) + OptionalSettings(reader, p.config)
  }

  /** What a failed call leaves in the request. */
  function LeftBehind(st: Store, reader: Reader, profileID: string, e: Failure, before: map<Key, Setting>): map<Key, Setting> {
    if !e.AccountUnavailable? || !st.profile(Archive, profileID).Found? then before
    else
      var p := st.profile(Archive, profileID).value;
      AfterFailure(st, Trim(ConfigString(p.config, "drive_destination_id")), e, BaseConfig(reader, p), before)
  }

  function AfterFailure(st: Store, destinationID: string, e: Failure, settings: map<Key, Setting>, before: map<Key, Setting>): map<Key, Setting> {
    if e.AccountUnavailable? && st.destination(destinationID).Found?
    then settings + DestinationSettings(st.destination(destinationID).value)
    else before
  }

  class StartRequest {
    const archiveProfileID: string
    var archiveConfig: map<Key, Setting>

    constructor (archiveProfileID: string)
      ensures this.archiveProfileID == archiveProfileID && archiveConfig == map[]
    {
      this.archiveProfileID := archiveProfileID;
      archiveConfig := map[];
    }

    /** A call that fails at the account or the provider leaves the settings of the destination behind. */
    method ApplyArchiveConfig(st: Store, reader: Reader) returns (failure: Option<Failure>)
      modifies this
      ensures Trim(archiveProfileID) == "" ==> failure.None? && archiveConfig == old(archiveConfig)
      ensures Trim(archiveProfileID) != "" ==>
                match ChainOf(st, Trim(archiveProfileID))
                case Err(e) => failure == Some(e) && archiveConfig == LeftBehind(st, reader, Trim(archiveProfileID), e, old(archiveConfig))
                case Ok(c) =>
                  var base := BaseConfig(reader, c.profile);
                  && failure.None?
                  && archiveConfig ==
                     if c.drive.Some? then WithDrive(base, reader, c.profile, c.drive.value)
                     else if |base| > 1 then base
                     else old(archiveConfig)
    {
      var profileID := Trim(archiveProfileID);
      if profileID == "" {
        return None;
      }
      var found := st.profile(Archive, profileID);
      if found.Missing? {
        return Some(ProfileNotFound);
      }
      if found.Broken? {
        return Some(StoreFailed);
      }
      failure := ApplyProfile(st, reader, found.value);
    }

    /** The settings of the profile itself, and of its Drive destination if it has one. */
    method ApplyProfile(st: Store, reader: Reader, profile: Profile) returns (failure: Option<Failure>)
      modifies this
      ensures var destinationID, base := Trim(ConfigString(profile.config, "drive_destination_id")), BaseConfig(reader, profile);
              if destinationID == "" then
                failure.None? && archiveConfig == if |base| > 1 then base else old(archiveConfig)
              else
                match DriveOf(st, destinationID)
                case Err(e) => failure == Some(e) && archiveConfig == AfterFailure(st, destinationID, e, base, old(archiveConfig))
                case Ok(x) => failure.None? && archiveConfig == WithDrive(base, reader, profile, x)
    {
      var settings := StartSettings(reader, profile);
      var destinationID := Trim(ConfigString(profile.config, "drive_destination_id"));
      if destinationID == "" {
        if |settings| > 1 {
          archiveConfig := settings;
        }
        return None;
      }
      failure := ApplyDrive(st, reader, profile, destinationID, settings);
    }

    method StartSettings(reader: Reader, profile: Profile) returns (settings: map<Key, Setting>)
      ensures settings == BaseConfig(reader, profile)
    {
      settings := map[ArchiveProfileID := Words(profile.id)];
      if reader.retentionDays(profile.config) > 0 {
        settings := settings[RetentionDays := Number(reader.retentionDays(profile.config))];
      }
    }

    /** The part that needs a Drive destination. */
    method ApplyDrive(st: Store, reader: Reader, profile: Profile, destinationID: string, settings: map<Key, Setting>)
      returns (failure: Option<Failure>)
      modifies this
      ensures match DriveOf(st, destinationID)
              case Err(e) => failure == Some(e) && archiveConfig == AfterFailure(st, destinationID, e, settings, old(archiveConfig))
              case Ok(x) => failure.None? && archiveConfig == WithDrive(settings, reader, profile, x)
    {
      var found := st.destination(destinationID);
      if found.Missing? {
        return Some(DestinationNotFound);
      }
      if found.Broken? {
        return Some(StoreFailed);
      }
      var destination := found.value;
      if Trim(destination.folderID) == "" {
        return Some(DestinationUnavailable);
      }
      if !EqualFold(Trim(destination.authMode), "oauth2") {
        return Some(InvalidConfig);
      }
      FillDestination(destination, settings);
      failure := ApplyCredentials(st, reader, profile, destination);
    }

    method ApplyCredentials(st: Store, reader: Reader, profile: Profile, d: Destination) returns (failure: Option<Failure>)
      modifies this
      ensures match CredentialsOf(st, d)
              case Err(e) => failure == Some(e) && e == AccountUnavailable && archiveConfig == old(archiveConfig)
              case Ok(x) =>
                && failure.None?
                && archiveConfig ==
                   old(archiveConfig) + CredentialSettings(x.account, x.provider) + OptionalSettings(reader, profile.config)
    {
      var account := st.account(d.oauthAccountID);
      if !account.Found? || Trim(account.value.refreshToken) == "" {
        return Some(AccountUnavailable);
      }
      if !account.value.allowsDrive {
        return Some(AccountUnavailable);
      }
      var provider := st.provider(account.value.providerID);
      if !provider.Found? || Trim(provider.value.clientSecret) == "" {
        return Some(AccountUnavailable);
      }
      FillCredentials(account.value, provider.value);
      FillOptional(reader, profile.config);
      return None;
    }

    method FillDestination(d: Destination, settings: map<Key, Setting>)
      modifies this
      ensures archiveConfig == settings + DestinationSettings(d)
    {
      archiveConfig := settings;
      archiveConfig := archiveConfig[DriveDestinationID := Words(d.id)];
      archiveConfig := archiveConfig[AuthMode := Words("oauth2")];
      archiveConfig := archiveConfig[OAuthAccountID := Words(d.oauthAccountID)];
      assert archiveConfig ==
          settings + map[DriveDestinationID := Words(d.id), AuthMode := Words("oauth2"), OAuthAccountID := Words(d.oauthAccountID)];
      archiveConfig := archiveConfig[FolderIDSecretName := Words(PrintName(FolderID, d.id))];
      archiveConfig := archiveConfig[SharedDrive := Flag(d.sharedDrive)];
    }

    method FillCredentials(a: Account, p: Provider)
      modifies this
      ensures archiveConfig == old(archiveConfig) + CredentialSettings(a, p)
    {
      archiveConfig := archiveConfig[OAuthProviderID := Words(p.id)];
      archiveConfig := archiveConfig[ClientID := Words(p.clientID)];
      archiveConfig := archiveConfig[ClientSecretSecretName := Words(PrintName(ClientSecret, p.id))];
      archiveConfig := archiveConfig[RefreshTokenSecretName := Words(PrintName(RefreshToken, a.id))];
    }

    method FillOptional(reader: Reader, c: Config)
      modifies this
      ensures archiveConfig == old(archiveConfig) + OptionalSettings(reader, c)
    {
      if reader.fileName(c) != "" {
        archiveConfig := archiveConfig[ArchiveFileName := Words(reader.fileName(c))];
      }
      if Trim(ConfigString(c, "shared_drive_id")) != "" {
        archiveConfig := archiveConfig[SharedDriveID := Words(Trim(ConfigString(c, "shared_drive_id")))];
      }
    }
  }

  /** The three secret names of the configuration are exactly the handed-out ones. */
  lemma ConfigHandsOutNames(base: map<Key, Setting>, reader: Reader, p: Profile, x: Drive)
    ensures var c := WithDrive(base, reader, p, x);
            && FolderIDSecretName in c && c[FolderIDSecretName] == Words(HandedOut(FolderID, x))
            && ClientSecretSecretName in c && c[ClientSecretSecretName] == Words(HandedOut(ClientSecret, x))
            && RefreshTokenSecretName in c && c[RefreshTokenSecretName] == Words(HandedOut(RefreshToken, x))
  {
    var destination, credentials := DestinationSettings(x.destination), CredentialSettings(x.account, x.provider);
    assert destination[FolderIDSecretName] == Words(HandedOut(FolderID, x));
    assert credentials[ClientSecretSecretName] == Words(HandedOut(ClientSecret, x));
    assert credentials[RefreshTokenSecretName] == Words(HandedOut(RefreshToken, x));
  }

  // --------------------------------------------------------------- reading a secret

  /** runtimeSecretValue; an unknown secret is missing too. */
  function SecretValue(st: Store, name: string): Lookup<string> {
    match ParseName(name)
    case None => st.secret(name)
    case Some(n) =>
      match n.secret
      case FolderID => NonBlank(st.destination(n.id), (d: Destination) => d.folderID)
      case ClientSecret => NonBlank(st.provider(n.id), (p: Provider) => p.clientSecret)
      case RefreshToken => NonBlank(st.account(n.id), (a: Account) => a.refreshToken)
  }

  function NonBlank<T>(x: Lookup<T>, text: T -> string): (r: Lookup<string>)
    ensures r.Found? ==> Trim(r.value) != ""
  {
    match x
    case Missing => Missing
    case Broken => Broken
    case Found(v) => if Trim(text(v)) == "" then Missing else Found(text(v))
  }

  // ------------------------------------------------------------------- the agreement

  /** A row is found under its own id only, and ids have neither colons nor outer spaces. */
  ghost predicate Keyed(st: Store) {
    && (forall k :: st.destination(k).Found? ==> st.destination(k).value.id == k && CleanWord(k))
    && (forall k :: st.account(k).Found? ==> st.account(k).value.id == k && CleanWord(k))
    && (forall k :: st.provider(k).Found? ==> st.provider(k).value.id == k && CleanWord(k))
  }

  /** The auth_mode column has two values. */
  ghost predicate Enumerated(st: Store) {
    forall k :: st.destination(k).Found? ==> st.destination(k).value.authMode == "oauth2" || st.destination(k).value.authMode == "service_account"
  }

  function IDFor(secret: Secret, x: Drive): string {
    match secret
    case FolderID => x.destination.id
    case ClientSecret => x.provider.id
    case RefreshToken => x.account.id
  }

  function HandedOut(secret: Secret, x: Drive): string {
    PrintName(secret, IDFor(secret, x))
  }

  lemma DriveIsKeyed(st: Store, destinationID: string, secret: Secret)
    requires Keyed(st) && DriveOf(st, destinationID).Ok?
    ensures var x := DriveOf(st, destinationID).value;
            && x.destination.id == destinationID
            && x.account.id == x.destination.oauthAccountID
            && x.provider.id == x.account.providerID
            && CleanWord(x.destination.oauthAccountID)
            && CleanWord(IDFor(secret, x))
            && ParseName(HandedOut(secret, x)) == Some(Named(secret, IDFor(secret, x)))
            && Trim(HandedOut(secret, x)) == HandedOut(secret, x)
  {
    var x := DriveOf(st, destinationID).value;
    ParseAfterPrint(secret, IDFor(secret, x));
  }

  /** What the stores hold under a secret of the destination's chain. */
  function Held(secret: Secret, x: Drive): string {
    match secret
    case FolderID => x.destination.folderID
    case ClientSecret => x.provider.clientSecret
    case RefreshToken => x.account.refreshToken
  }

  /** Every handed-out name resolves to the value of its own row, which is not blank. */
  lemma HandedOutNamesResolve(st: Store, destinationID: string, secret: Secret)
    requires Keyed(st) && DriveOf(st, destinationID).Ok?
    ensures var x := DriveOf(st, destinationID).value; SecretValue(st, HandedOut(secret, x)) == Found(Held(secret, x))
    ensures SecretValue(st, HandedOut(secret, DriveOf(st, destinationID).value)).Found?
    ensures Trim(SecretValue(st, HandedOut(secret, DriveOf(st, destinationID).value)).value) != ""
  {
    DriveIsKeyed(st, destinationID, secret);
  }

  /** The integration branch allows it, except that it wants the mode spelled exactly. */
  lemma DestinationAllowsExactlyWhen(st: Store, destinationID: string, secret: Secret)
    requires Keyed(st) && DriveOf(st, destinationID).Ok?
    ensures var x := DriveOf(st, destinationID).value;
            DestinationAllowed(st, destinationID, Named(secret, IDFor(secret, x)))
            == Say(secret == FolderID || x.destination.authMode == "oauth2")
  {
    DriveIsKeyed(st, destinationID, secret);
    TrimOfTrimmed(DriveOf(st, destinationID).value.destination.oauthAccountID);
  }

  ghost predicate ListsLoad(st: Store) {
    forall kind | kind in {Encoder, Archive, YouTubeOutput, Overlay} :: st.profiles(kind).Some?
  }

  /** For an integration name only archive profiles can answer. */
  lemma OnlyArchivesAnswer(st: Store, r: Request)
    requires r.service.kind == "encoder_recorder" && ListsLoad(st) && ParseName(Trim(r.secretName)).Some?
    requires Trim(r.secretName) != ""
    ensures AskKinds(st, r, KindsFor(r.service.kind)) == AskKind(st, r, Archive)
  {
    assert forall kind | kind != Archive :: !KindAllowsSecret(kind, r.secretName);
    ListIsSilent(st, r, Encoder, st.profiles(Encoder).value);
    ListIsSilent(st, r, YouTubeOutput, st.profiles(YouTubeOutput).value);
    ListIsSilent(st, r, Overlay, st.profiles(Overlay).value);
    var kinds := KindsFor(r.service.kind);
    assert kinds[1..] == [Archive, YouTubeOutput, Overlay];
    assert kinds[1..][1..] == [YouTubeOutput, Overlay];
    assert kinds[1..][1..][1..] == [Overlay];
    assert kinds[1..][1..][1..][1..] == [];
    assert AskKinds(st, r, [Overlay]).None?;
    assert AskKinds(st, r, [YouTubeOutput, Overlay]).None?;
  }

  /** The first listed archive profile that names the secret itself, if any, decides. */
  lemma ArchiveAnswer(st: Store, r: Request)
    requires r.service.kind == "encoder_recorder" && st.profiles(Archive).Some? && KindAllowsSecret(Archive, r.secretName)
    ensures var direct := FirstReferring(st.profiles(Archive).value, r.secretName);
            AskKind(st, r, Archive) == if direct.None? then None else Some(ArchiveProfileAllowed(st, r, direct.value.id))
  {
    var items := st.profiles(Archive).value;
    ListAsksFirst(st, r, Archive, items);
    if FirstReferring(items, r.secretName).Some? {
      FirstRefers(items, r.secretName);
    }
  }

  /** The first two branches never answer for an integration name. */
  lemma KeysAreOther(st: Store, r: Request, secret: Secret, id: string)
    requires CleanWord(id) && r.secretName == PrintName(secret, id)
    ensures LiveKeyAllowed(st, r).No? && OutputKeyAllowed(st, r).No?
  {
    ParseAfterPrint(secret, id);
    PrintedIsNoRuntimeKey(secret, id);
  }

  /** The request of a stream's primary encoder for a name handed out with the stream's archive configuration. */
  ghost predicate FromPrimary(st: Store, r: Request, stream: Stream) {
    && r.service.kind == "encoder_recorder"
    && r.streamID == Trim(r.streamID) != ""
    && PrimaryAssigned(st, r.service.id, r.streamID).Yes?
    && st.stream(r.streamID) == Found(stream)
    && (Trim(r.archiveProfileID) == "" || r.archiveProfileID == Trim(stream.archiveProfileID))
  }

  /** The integration branch gets as far as the stream's Drive destination. */
  lemma IntegrationReaches(st: Store, r: Request, stream: Stream, n: Named, profile: Profile)
    requires FromPrimary(st, r, stream) && Trim(stream.archiveProfileID) != ""
    requires ParseName(r.secretName) == Some(n)
    requires st.profile(Archive, Trim(stream.archiveProfileID)) == Found(profile)
    requires Trim(ConfigString(profile.config, "drive_destination_id")) != ""
    ensures IntegrationAllowed(st, r) == DestinationAllowed(st, Trim(ConfigString(profile.config, "drive_destination_id")), n)
  {
    TrimOfTrimmed(Trim(stream.archiveProfileID));
    assert RequestedArchive(stream, r.archiveProfileID) == Some(Trim(stream.archiveProfileID));
  }

  lemma ChainReaches(st: Store, profileID: string, profile: Profile, x: Drive)
    requires ChainOf(st, profileID) == Ok(Chain(profile, Some(x)))
    ensures st.profile(Archive, profileID) == Found(profile) && Trim(ConfigString(profile.config, "drive_destination_id")) != ""
    ensures DriveOf(st, Trim(ConfigString(profile.config, "drive_destination_id"))) == Ok(x)
  {
  }

  lemma IntegrationAnswer(st: Store, r: Request, stream: Stream, secret: Secret, x: Drive, profile: Profile)
    requires Keyed(st) && FromPrimary(st, r, stream) && Trim(stream.archiveProfileID) != ""
    requires ChainOf(st, Trim(stream.archiveProfileID)) == Ok(Chain(profile, Some(x)))
    requires r.secretName == HandedOut(secret, x)
    ensures IntegrationAllowed(st, r) == Say(secret == FolderID || x.destination.authMode == "oauth2")
  {
    var destinationID := Trim(ConfigString(profile.config, "drive_destination_id"));
    ChainReaches(st, Trim(stream.archiveProfileID), profile, x);
    DriveIsKeyed(st, destinationID, secret);
    DestinationAllowsExactlyWhen(st, destinationID, secret);
    IntegrationReaches(st, r, stream, Named(secret, IDFor(secret, x)), profile);
  }

  /** For any spelling of the mode: the two OAuth secrets want it exactly so. */
  lemma HandedOutNamesAnswer(st: Store, r: Request, stream: Stream, secret: Secret, x: Drive, profile: Profile)
    requires Keyed(st) && ListsLoad(st) && FromPrimary(st, r, stream) && Trim(stream.archiveProfileID) != ""
    requires ChainOf(st, Trim(stream.archiveProfileID)) == Ok(Chain(profile, Some(x)))
    requires r.secretName == HandedOut(secret, x)
    ensures var direct := FirstReferring(st.profiles(Archive).value, r.secretName);
            Decision(st, r) == Say(if direct.Some? then direct.value.id == stream.archiveProfileID
                                   else secret == FolderID || x.destination.authMode == "oauth2")
  {
    DriveIsKeyed(st, Trim(ConfigString(profile.config, "drive_destination_id")), secret);
    KeysAreOther(st, r, secret, IDFor(secret, x));
    OnlyArchivesAnswer(st, r);
    ArchiveAnswer(st, r);
    TrimOfTrimmed(Trim(stream.archiveProfileID));
    IntegrationAnswer(st, r, stream, secret, x, profile);
  }

  lemma NotServiceAccount()
    ensures !EqualFold(Trim("service_account"), "oauth2")
  {
    var mode := "service_account";
    assert mode[0] == 's' && mode[|mode| - 1] == 't';
    TrimOfTrimmed(mode);
    assert |"oauth2"| == 6 && |mode| == 15;
  }

  /** A configuration is only handed out for a destination in the OAuth mode. */
  lemma HandedOutIsOAuth(st: Store, destinationID: string)
    requires Enumerated(st) && DriveOf(st, destinationID).Ok?
    ensures DriveOf(st, destinationID).value.destination.authMode == "oauth2"
  {
    NotServiceAccount();
  }

  /**
   A handed-out name is allowed for the stream's primary encoder exactly when the
   first listed archive profile that names it directly, if there is one, is the
   stream's own.
   */
  lemma HandedOutNamesAllowedExactlyWhen(st: Store, r: Request, stream: Stream, secret: Secret, x: Drive, profile: Profile)
    requires Keyed(st) && Enumerated(st) && ListsLoad(st) && FromPrimary(st, r, stream) && Trim(stream.archiveProfileID) != ""
    requires ChainOf(st, Trim(stream.archiveProfileID)) == Ok(Chain(profile, Some(x)))
    requires r.secretName == HandedOut(secret, x)
    ensures var direct := FirstReferring(st.profiles(Archive).value, r.secretName);
            Decision(st, r) == Say(direct.None? || direct.value.id == stream.archiveProfileID)
  {
    HandedOutIsOAuth(st, Trim(ConfigString(profile.config, "drive_destination_id")));
    HandedOutNamesAnswer(st, r, stream, secret, x, profile);
  }
}
