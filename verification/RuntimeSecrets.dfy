/**
 Which registered service may read which secret for which stream. The decision
 is read-only; every lookup may also fail, and a failed lookup is never a yes.
 */
module RuntimeSecrets {
  import opened Text
  import opened Profiles
  import opened SecretNames

  datatype Service = Service(id: string, kind: string)

  datatype Request = Request(service: Service, secretName: string, streamID: string, archiveProfileID: string)

  datatype Profile = Profile(id: string, config: Config)

  datatype Stream = Stream(
    youtubeOutputID: string, archiveProfileID: string, encoderProfileID: string,
    overlayProfileID: string, captionProfileID: string)

  /** The live runtime of a stream. */
  datatype Live = Live(streamKeySecretName: string, mode: string, youtubeOutput: string)

  datatype Assignment = Assignment(streamID: string, role: string)

  datatype Destination = Destination(id: string, folderID: string, authMode: string, oauthAccountID: string, sharedDrive: bool)

  /** `allowsDrive` is what its scopes say about the Drive purpose. */
  datatype Account = Account(id: string, providerID: string, refreshToken: string, allowsDrive: bool)

  datatype Provider = Provider(id: string, clientID: string, clientSecret: string)

  /** The stores. A stream store need not keep live runtimes; a list may fail to load. */
  datatype Store = Store(
    live: Option<string -> Lookup<Live>>,
    profile: (Kind, string) -> Lookup<Profile>,
    profiles: Kind -> Option<seq<Profile>>,
    stream: string -> Lookup<Stream>,
    assignments: string -> Option<seq<Assignment>>,
    destination: string -> Lookup<Destination>,
    account: string -> Lookup<Account>,
    provider: string -> Lookup<Provider>,
    secret: string -> Lookup<string>)

  datatype Answer = Yes | No | Error

  function Say(b: bool): Answer {
    if b then Yes else No
  }

  /** The next question, when the answer so far is no. */
  function Else(a: Answer, b: Answer): Answer {
    if a.No? then b else a
  }

  // ----------------------------------------------------------- the assignment

  predicate IsPrimary(a: Assignment, streamID: string) {
    a.streamID == streamID && (Trim(a.role) == "" || Trim(a.role) == "primary")
  }

  predicate HasPrimary(assignments: seq<Assignment>, streamID: string) {
    exists i | 0 <= i < |assignments| :: IsPrimary(assignments[i], streamID)
  }

  function PrimaryAssigned(st: Store, serviceID: string, streamID: string): Answer {
    match st.assignments(serviceID)
    case None => Error
    case Some(list) => Say(HasPrimary(list, streamID))
  }

  method ServicePrimaryAssignedToStream(st: Store, serviceID: string, streamID: string) returns (r: Answer)
    ensures r == PrimaryAssigned(st, serviceID, streamID)
  {
    var assignments := st.assignments(serviceID);
    if assignments.None? {
      return Error;
    }
    for i := 0 to |assignments.value|
      invariant forall j | 0 <= j < i :: !IsPrimary(assignments.value[j], streamID)
    {
      var role := Trim(assignments.value[i].role);
      if role == "" {
        role := "primary";
      }
      if assignments.value[i].streamID == streamID && role == "primary" {
        return Yes;
      }
    }
    return No;
  }

  // --------------------------------------------------------- the stream's profiles

  function OutputMode(c: Config): string {
    var value := Lower(Trim(FirstNonEmpty(ConfigString(c, "mode"), ConfigString(c, "output_mode"))));
    if value in {"", "stream_key", "existing_stream_key", "rtmps_stream_key"} then "stream_key"
    else if value in {"live_api_dry_run", "dry_run_live_api", "youtube_live_api_dry_run"} then "live_api_dry_run"
    else if value in {"live_api", "youtube_live_api"} then "live_api"
    else if value in {"live_api_relay_static", "youtube_live_api_relay_static"} then "live_api_relay_static"
    else ""
  }

  /** The key of the stream's own live runtime. */
  function LiveKeyAllowed(st: Store, r: Request): Answer {
    var streamID, name := Trim(r.streamID), Trim(r.secretName);
    if r.service.kind != "encoder_recorder" || streamID == "" || !HasPrefix(name, "youtube_stream_key_runtime_") then No
    else if st.live.None? then No
    else
      match st.live.value(streamID)
      case Missing => No
      case Broken => Error
      case Found(live) =>
        if Trim(live.streamKeySecretName) != name || live.mode !in {"live_api", "live_api_dry_run"} then No
        else if Trim(live.youtubeOutput) == "" then No
        else
          match st.profile(YouTubeOutput, live.youtubeOutput)
          case Missing => No
          case Broken => Error
          case Found(_) => PrimaryAssigned(st, r.service.id, streamID)
  }

  /** The static key of the stream's selected output. */
  function OutputKeyAllowed(st: Store, r: Request): Answer {
    var streamID, name := Trim(r.streamID), Trim(r.secretName);
    if r.service.kind != "encoder_recorder" || streamID == "" || !KindAllowsSecret(YouTubeOutput, name)
       || HasPrefix(name, "youtube_stream_key_runtime_") then No
    else
      match st.stream(streamID)
      case Missing => No
      case Broken => Error
      case Found(stream) =>
        if Trim(stream.youtubeOutputID) == "" then No
        else
          match st.profile(YouTubeOutput, stream.youtubeOutputID)
          case Missing => No
          case Broken => Error
          case Found(output) =>
            if OutputMode(output.config) != "stream_key" then No
            else if Trim(ConfigString(output.config, "stream_key_secret_name")) != name then No
            else if ("service_id" in output.config || "service_ids" in output.config)
                    && !MatchesService(output.config, r.service.id) then No
            else PrimaryAssigned(st, r.service.id, streamID)
  }

  predicate HasSuffix(s: string, suffix: string) {
    |s| >= |suffix| && s[|s| - |suffix|..] == suffix
  }

  predicate IsReferenceKey(key: string) {
    var k := Lower(Trim(key));
    HasSuffix(k, "_secret_name") || HasSuffix(k, "_secret_ref") || HasSuffix(k, "_secret_id")
  }

  predicate References(c: Config, secretName: string) {
    exists key | key in c :: IsReferenceKey(key) && c[key].Str? && Trim(c[key].text) == secretName
  }

  /** An archive profile's secret: the profile must be the stream's, and the one asked for if any. */
  function ArchiveProfileAllowed(st: Store, r: Request, profileID: string): Answer {
    var streamID := Trim(r.streamID);
    if r.service.kind != "encoder_recorder" || streamID == "" then No
    else
      var primary := PrimaryAssigned(st, r.service.id, streamID);
      if !primary.Yes? then primary
      else
        match st.stream(streamID)
        case Missing => No
        case Broken => Error
        case Found(stream) =>
          if Trim(r.archiveProfileID) != "" && Trim(r.archiveProfileID) != Trim(stream.archiveProfileID) then No
          else Say(stream.archiveProfileID == profileID)
  }

  /** The profile a stream selects for a kind; captions are only for workers. */
  predicate Selected(stream: Stream, serviceKind: string, kind: Kind, profileID: string) {
    match kind
    case YouTubeOutput => stream.youtubeOutputID == profileID
    case Archive => stream.archiveProfileID == profileID
    case Encoder => stream.encoderProfileID == profileID
    case Overlay => stream.overlayProfileID == profileID
    case Caption => serviceKind == "worker" && stream.captionProfileID == profileID
    case DiscordConfig => false
  }

  function GenericAllowed(st: Store, r: Request, kind: Kind, profileID: string): Answer {
    var streamID := Trim(r.streamID);
    if r.service.kind !in {"encoder_recorder", "worker"} || streamID == "" then No
    else
      var primary := PrimaryAssigned(st, r.service.id, streamID);
      if !primary.Yes? then primary
      else
        match st.stream(streamID)
        case Missing => No
        case Broken => Error
        case Found(stream) => Say(Selected(stream, r.service.kind, kind, profileID))
  }

  // --------------------------------------------------------- the integration store

  function DestinationAllowed(st: Store, destinationID: string, n: Named): Answer {
    match st.destination(destinationID)
    case Missing => No
    case Broken => Error
    case Found(d) =>
      match n.secret
      case FolderID => Say(d.id == n.id)
      case RefreshToken =>
        if d.authMode != "oauth2" || d.oauthAccountID != n.id then No
        else (match st.account(n.id)
              case Missing => No
              case Broken => Error
              case Found(a) => Say(a.allowsDrive))
      case ClientSecret =>
        if d.authMode != "oauth2" || Trim(d.oauthAccountID) == "" then No
        else (match st.account(d.oauthAccountID)
              case Missing => No
              case Broken => Error
              case Found(a) => Say(a.providerID == n.id && a.allowsDrive))
  }

  /** The archive profile an integration request is about, when it may name it. */
  function RequestedArchive(stream: Stream, requested: string): Option<string> {
    var own := Trim(stream.archiveProfileID);
    if Trim(requested) == "" then (if own == "" then None else Some(own))
    else if Trim(requested) == own then Some(requested)
    else None
  }

  function IntegrationAllowed(st: Store, r: Request): Answer {
    if r.service.kind != "encoder_recorder" || ParseName(r.secretName).None? || Trim(r.streamID) == "" then No
    else
      var primary := PrimaryAssigned(st, r.service.id, r.streamID);
      if !primary.Yes? then primary
      else
        match st.stream(r.streamID)
        case Missing => No
        case Broken => Error
        case Found(stream) =>
          match RequestedArchive(stream, r.archiveProfileID)
          case None => No
          case Some(archive) =>
            match st.profile(Archive, archive)
            case Missing => No
            case Broken => Error
            case Found(p) =>
              var destinationID := Trim(ConfigString(p.config, "drive_destination_id"));
              if destinationID == "" then No
              else DestinationAllowed(st, destinationID, ParseName(r.secretName).value)
  }

  // -------------------------------------------------------------- the whole decision

  function KindsFor(serviceKind: string): seq<Kind> {
    if serviceKind == "discord_bot" then [DiscordConfig, Caption]
    else if serviceKind == "encoder_recorder" then [Encoder, Archive, YouTubeOutput, Overlay]
    else if serviceKind == "worker" then [Overlay, Caption]
    else []
  }

  /** What one listed profile says: nothing, or the final answer. */
  function AskProfile(st: Store, r: Request, kind: Kind, p: Profile): Option<Answer> {
    if !References(p.config, r.secretName) || !KindAllowsSecret(kind, r.secretName) then None
    else if r.service.kind == "encoder_recorder" && kind == Archive then Some(ArchiveProfileAllowed(st, r, p.id))
    else if kind != Caption && !MatchesService(p.config, r.service.id) then None
    else if r.service.kind == "encoder_recorder" || StreamScoped(r.secretName) then Some(GenericAllowed(st, r, kind, p.id))
    else Some(Yes)
  }

  function AskList(st: Store, r: Request, kind: Kind, items: seq<Profile>): Option<Answer> {
    if items == [] then None
    else
      var first := AskProfile(st, r, kind, items[0]);
      if first.Some? then first else AskList(st, r, kind, items[1..])
  }

  function AskKind(st: Store, r: Request, kind: Kind): Option<Answer> {
    match st.profiles(kind)
    case None => Some(Error)
    case Some(items) => AskList(st, r, kind, items)
  }

  function AskKinds(st: Store, r: Request, kinds: seq<Kind>): Option<Answer> {
    if kinds == [] then None
    else
      var first := AskKind(st, r, kinds[0]);
      if first.Some? then first else AskKinds(st, r, kinds[1..])
  }

  function Decision(st: Store, r: Request): Answer {
    Else(LiveKeyAllowed(st, r),
      Else(OutputKeyAllowed(st, r),
        AskKinds(st, r, KindsFor(r.service.kind)).GetOr(IntegrationAllowed(st, r))))
  }

  /** The inner loop of the source, with its own order of tests. */
  method SearchProfiles(st: Store, r: Request, kind: Kind, items: seq<Profile>) returns (a: Option<Answer>)
    ensures a == AskList(st, r, kind, items)
  {
    var i := 0;
    while i < |items|
      invariant 0 <= i <= |items|
      invariant AskList(st, r, kind, items) == AskList(st, r, kind, items[i..])
    {
      var item := items[i];
      assert items[i..][1..] == items[i + 1..];
      i := i + 1;
      if r.service.kind == "encoder_recorder" && kind == Archive && References(item.config, r.secretName) {
        if !KindAllowsSecret(kind, r.secretName) {
          continue;
        }
        return Some(ArchiveProfileAllowed(st, r, item.id));
      }
      if kind != Caption && !MatchesService(item.config, r.service.id) {
        continue;
      }
      if References(item.config, r.secretName) {
        if !KindAllowsSecret(kind, r.secretName) {
          continue;
        }
        if r.service.kind == "encoder_recorder" || StreamScoped(r.secretName) {
          return Some(GenericAllowed(st, r, kind, item.id));
        }
        return Some(Yes);
      }
    }
    return None;
  }

  method RuntimeSecretAllowedForService(st: Store, r: Request) returns (a: Answer)
    ensures a == Decision(st, r)
  {
    a := LiveKeyAllowed(st, r);
    if !a.No? {
      return;
    }
    a := OutputKeyAllowed(st, r);
    if !a.No? {
      return;
    }
    var kinds := KindsFor(r.service.kind);
    var i := 0;
    while i < |kinds|
      invariant 0 <= i <= |kinds|
      invariant AskKinds(st, r, kinds) == AskKinds(st, r, kinds[i..])
    {
      assert kinds[i..][1..] == kinds[i + 1..];
      var items := st.profiles(kinds[i]);
      if items.None? {
        return Error;
      }
      var found := SearchProfiles(st, r, kinds[i], items.value);
      if found.Some? {
        return found.value;
      }
      i := i + 1;
    }
    return IntegrationAllowed(st, r);
  }
}
