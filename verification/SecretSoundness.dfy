/** What an allowed runtime-secret request implies, over all stores. */
module SecretSoundness {
  import opened Text
  import opened Profiles
  import opened SecretNames
  import opened RuntimeSecrets

  // ----------------------------------------------------- what a secret belongs to

  ghost predicate Assigned(st: Store, serviceID: string, streamID: string) {
    PrimaryAssigned(st, serviceID, streamID).Yes? && Trim(streamID) != ""
  }

  /** The profile of each kind that a stream has selected. */
  function OwnProfile(s: Stream, kind: Kind): Option<string> {
    match kind
    case DiscordConfig => None
    case Encoder => Some(s.encoderProfileID)
    case Archive => Some(s.archiveProfileID)
    case YouTubeOutput => Some(s.youtubeOutputID)
    case Overlay => Some(s.overlayProfileID)
    case Caption => Some(s.captionProfileID)
  }

  /** A listed profile of the kind that the stream selects, that names the secret and may name it. */
  ghost predicate InSelectedProfile(st: Store, r: Request, kind: Kind) {
    && KindAllowsSecret(kind, r.secretName)
    && Assigned(st, r.service.id, Trim(r.streamID))
    && st.stream(Trim(r.streamID)).Found?
    && st.profiles(kind).Some?
    && exists i | 0 <= i < |st.profiles(kind).value| ::
         var p := st.profiles(kind).value[i];
         References(p.config, r.secretName) && OwnProfile(st.stream(Trim(r.streamID)).value, kind) == Some(p.id)
  }

  /** The stream's own live runtime has that key, in a live mode, for an output that exists. */
  ghost predicate IsLiveKey(st: Store, r: Request) {
    && r.service.kind == "encoder_recorder"
    && HasPrefix(Trim(r.secretName), "youtube_stream_key_runtime_")
    && Assigned(st, r.service.id, Trim(r.streamID))
    && st.live.Some? && st.live.value(Trim(r.streamID)).Found?
    && var live := st.live.value(Trim(r.streamID)).value;
       && Trim(live.streamKeySecretName) == Trim(r.secretName)
       && (live.mode == "live_api" || live.mode == "live_api_dry_run")
       && Trim(live.youtubeOutput) != ""
       && st.profile(YouTubeOutput, live.youtubeOutput).Found?
  }

  /** The mode an output is configured with, in either of two settings. */
  function ModeOf(c: Config): string {
    var mode := Trim(ConfigString(c, "mode"));
    if mode != "" then mode else Trim(ConfigString(c, "output_mode"))
  }

  /** Every other mode, known or unknown, has no static key. */
  predicate IsStaticMode(mode: string) {
    || mode == ""
    || Lower(mode) == "stream_key" || Lower(mode) == "existing_stream_key" || Lower(mode) == "rtmps_stream_key"
  }

  /** The output the stream has selected has that static key and is not bound to another service. */
  ghost predicate IsOutputKey(st: Store, r: Request) {
    && r.service.kind == "encoder_recorder"
    && KindAllowsSecret(YouTubeOutput, Trim(r.secretName))
    && !HasPrefix(Trim(r.secretName), "youtube_stream_key_runtime_")
    && Assigned(st, r.service.id, Trim(r.streamID))
    && st.stream(Trim(r.streamID)).Found?
    && var selected := st.stream(Trim(r.streamID)).value.youtubeOutputID;
       && Trim(selected) != ""
       && st.profile(YouTubeOutput, selected).Found?
       && var output := st.profile(YouTubeOutput, selected).value;
          && Trim(ConfigString(output.config, "stream_key_secret_name")) == Trim(r.secretName)
          && IsStaticMode(ModeOf(output.config))
          && ("service_id" in output.config || "service_ids" in output.config ==> MatchesService(output.config, r.service.id))
  }

  /** Part of the credentials of a Drive destination. */
  ghost predicate IsCredentialOf(st: Store, d: Destination, n: Named) {
    match n.secret
    case FolderID => n.id == d.id
    case RefreshToken => d.authMode == "oauth2" && n.id == d.oauthAccountID && st.account(n.id).Found? && st.account(n.id).value.allowsDrive
    case ClientSecret =>
      && d.authMode == "oauth2" && Trim(d.oauthAccountID) != ""
      && st.account(d.oauthAccountID).Found?
      && st.account(d.oauthAccountID).value.allowsDrive
      && st.account(d.oauthAccountID).value.providerID == n.id
  }

  /** A credential of the Drive destination of the stream's archive profile, which the request may name. */
  ghost predicate IsDriveCredential(st: Store, r: Request) {
    && r.service.kind == "encoder_recorder"
    && Assigned(st, r.service.id, r.streamID)
    && ParseName(r.secretName).Some?
    && st.stream(r.streamID).Found?
    && (Trim(r.archiveProfileID) == "" ||
        Trim(r.archiveProfileID) == Trim(st.stream(r.streamID).value.archiveProfileID))
    && Trim(st.stream(r.streamID).value.archiveProfileID) != ""
    && var own := st.stream(r.streamID).value.archiveProfileID;
       var archive := if Trim(r.archiveProfileID) == "" then Trim(own) else r.archiveProfileID;
       && st.profile(Archive, archive).Found?
       && var destinationID := Trim(ConfigString(st.profile(Archive, archive).value.config, "drive_destination_id"));
          && destinationID != ""
          && st.destination(destinationID).Found?
          && IsCredentialOf(st, st.destination(destinationID).value, ParseName(r.secretName).value)
  }

  // -------------------------------------------------------------------- the encoder

  lemma LiveKeyAllowedExactlyWhen(st: Store, r: Request)
    ensures LiveKeyAllowed(st, r).Yes? <==> IsLiveKey(st, r)
  {
    TrimOfTrimmed(Trim(r.streamID));
  }

  lemma StaticModeExactlyWhen(c: Config)
    ensures OutputMode(c) == "stream_key" <==> IsStaticMode(ModeOf(c))
  {
    var mode := ModeOf(c);
    TrimOfTrimmed("");
    assert mode == Trim(FirstNonEmpty(ConfigString(c, "mode"), ConfigString(c, "output_mode")));
    assert Lower(mode) == "" <==> mode == "";
    assert "stream_key"[0] == 's' && "live_api_dry_run"[0] == "live_api"[0] == "live_api_relay_static"[0] == 'l';
  }

  lemma OutputKeyAllowedExactlyWhen(st: Store, r: Request)
    ensures OutputKeyAllowed(st, r).Yes? <==> IsOutputKey(st, r)
  {
    TrimOfTrimmed(Trim(r.streamID));
    if st.stream(Trim(r.streamID)).Found? {
      var output := st.profile(YouTubeOutput, st.stream(Trim(r.streamID)).value.youtubeOutputID);
      if output.Found? {
        StaticModeExactlyWhen(output.value.config);
      }
    }
  }

  /** A profile that says yes to an encoder or a worker is one the stream selects. */
  lemma ProfileIsSound(st: Store, r: Request, kind: Kind, p: Profile)
    requires AskProfile(st, r, kind, p) == Some(Yes)
    requires r.service.kind == "encoder_recorder" || kind == Caption
    ensures References(p.config, r.secretName) && KindAllowsSecret(kind, r.secretName)
    ensures Assigned(st, r.service.id, Trim(r.streamID)) && st.stream(Trim(r.streamID)).Found?
    ensures OwnProfile(st.stream(Trim(r.streamID)).value, kind) == Some(p.id)
  {
    TrimOfTrimmed(Trim(r.streamID));
    if kind == Caption {
      CaptionNamesAreStreamScoped(r.secretName);
    }
  }

  /** The listed profile that gave the answer. */
  lemma {:induction false} AnsweringProfile(st: Store, r: Request, kind: Kind, items: seq<Profile>) returns (i: nat)
    requires AskList(st, r, kind, items).Some?
    ensures i < |items| && AskProfile(st, r, kind, items[i]) == AskList(st, r, kind, items)
  {
    if AskProfile(st, r, kind, items[0]).Some? {
      i := 0;
    } else {
      i := AnsweringProfile(st, r, kind, items[1..]);
      i := i + 1;
    }
  }

  lemma KindIsSound(st: Store, r: Request, kind: Kind)
    requires AskKind(st, r, kind) == Some(Yes)
    requires r.service.kind == "encoder_recorder" || kind == Caption
    ensures InSelectedProfile(st, r, kind)
  {
    var items := st.profiles(kind).value;
    var i := AnsweringProfile(st, r, kind, items);
    ProfileIsSound(st, r, kind, items[i]);
  }

  lemma {:induction false} AnsweringKind(st: Store, r: Request, kinds: seq<Kind>) returns (i: nat)
    requires AskKinds(st, r, kinds).Some?
    ensures i < |kinds| && AskKind(st, r, kinds[i]) == AskKinds(st, r, kinds)
  {
    if AskKind(st, r, kinds[0]).Some? {
      i := 0;
    } else {
      i := AnsweringKind(st, r, kinds[1..]);
      i := i + 1;
    }
  }

  lemma DestinationAllowedExactlyFor(st: Store, destinationID: string, n: Named)
    ensures DestinationAllowed(st, destinationID, n).Yes? <==>
            st.destination(destinationID).Found? && IsCredentialOf(st, st.destination(destinationID).value, n)
  {
  }

  /** The destination an integration request comes to, when it names no archive profile but the stream's. */
  lemma IntegrationAllowedExactlyWhen(st: Store, r: Request)
    ensures IntegrationAllowed(st, r).Yes? <==> IsDriveCredential(st, r)
  {
    if ParseName(r.secretName).Some? && st.stream(r.streamID).Found? {
      var requested := RequestedArchive(st.stream(r.streamID).value, r.archiveProfileID);
      if requested.Some? && st.profile(Archive, requested.value).Found? {
        var destinationID := Trim(ConfigString(st.profile(Archive, requested.value).value.config, "drive_destination_id"));
        DestinationAllowedExactlyFor(st, destinationID, ParseName(r.secretName).value);
      }
    }
  }

  lemma EncoderProfileIsSelected(st: Store, r: Request)
    requires r.service.kind == "encoder_recorder" && AskKinds(st, r, KindsFor(r.service.kind)) == Some(Yes)
    ensures exists kind :: kind in {Encoder, Archive, YouTubeOutput} && InSelectedProfile(st, r, kind)
  {
    var i := AnsweringKind(st, r, KindsFor(r.service.kind));
    var kind := EncoderKind(i);
    KindIsSound(st, r, kind);
    OverlayNamesNothing(st, r);
  }

  lemma EncoderKind(i: nat) returns (kind: Kind)
    requires i < |KindsFor("encoder_recorder")|
    ensures kind == KindsFor("encoder_recorder")[i] && kind in {Encoder, Archive, YouTubeOutput, Overlay}
  {
    kind := KindsFor("encoder_recorder")[i];
  }

  lemma OverlayNamesNothing(st: Store, r: Request)
    ensures !InSelectedProfile(st, r, Overlay)
  {
    if KindAllowsSecret(Overlay, r.secretName) {
      OneKindPerName(r.secretName, Overlay, Overlay);
    }
  }

  /**
   An encoder that is allowed a secret is the primary of the requested stream, and
   the secret is one of that stream: its live key, the key of its output, in a
   profile it selects, or a credential of its archive destination.
   */
  lemma EncoderSecretsAreTheStreams(st: Store, r: Request)
    requires r.service.kind == "encoder_recorder" && Decision(st, r).Yes?
    ensures || IsLiveKey(st, r)
            || IsOutputKey(st, r)
            || (exists kind :: kind in {Encoder, Archive, YouTubeOutput} && InSelectedProfile(st, r, kind))
            || IsDriveCredential(st, r)
  {
    LiveKeyAllowedExactlyWhen(st, r);
    OutputKeyAllowedExactlyWhen(st, r);
    if !LiveKeyAllowed(st, r).Yes? && !OutputKeyAllowed(st, r).Yes? {
      var kinds := KindsFor(r.service.kind);
      if AskKinds(st, r, kinds).Some? {
        EncoderProfileIsSelected(st, r);
      } else {
        IntegrationAllowedExactlyWhen(st, r);
      }
    }
  }

  // ------------------------------------------ the encoder, when every store answers

  /** No store fails, whatever it is asked. */
  ghost predicate StoresAnswer(st: Store) {
    && (st.live.Some? ==> forall id :: !st.live.value(id).Broken?)
    && (forall kind, id :: !st.profile(kind, id).Broken?)
    && (forall kind :: st.profiles(kind).Some?)
    && (forall id :: !st.stream(id).Broken?)
    && (forall id :: st.assignments(id).Some?)
    && (forall id :: !st.destination(id).Broken?)
    && (forall id :: !st.account(id).Broken?)
  }

  /** A listed profile that has a say about the secret: it names it, may name it, and is an archive profile or bound to the encoder. */
  predicate Speaks(r: Request, kind: Kind, p: Profile) {
    References(p.config, r.secretName) && KindAllowsSecret(kind, r.secretName) && (kind == Archive || MatchesService(p.config, r.service.id))
  }

  function SpeakerIn(r: Request, kind: Kind, items: seq<Profile>): Option<Profile> {
    if items == [] then None
    else if Speaks(r, kind, items[0]) then Some(items[0])
    else SpeakerIn(r, kind, items[1..])
  }

  /** The first profile that has a say, over encoder, archive, output and overlay profiles in this order. */
  function SpeakerOf(st: Store, r: Request, kinds: seq<Kind>): Option<(Kind, Profile)> {
    if kinds == [] then None
    else
      var here := if st.profiles(kinds[0]).Some? then SpeakerIn(r, kinds[0], st.profiles(kinds[0]).value) else None;
      if here.Some? then Some((kinds[0], here.value)) else SpeakerOf(st, r, kinds[1..])
  }

  /** The encoder is the primary of a stream that selects the profile, and asks for no other archive profile. */
  ghost predicate SelectsFor(st: Store, r: Request, kind: Kind, p: Profile) {
    && Assigned(st, r.service.id, Trim(r.streamID))
    && st.stream(Trim(r.streamID)).Found?
    && var stream := st.stream(Trim(r.streamID)).value;
       && OwnProfile(stream, kind) == Some(p.id)
       && (kind == Archive && Trim(r.archiveProfileID) != "" ==> Trim(r.archiveProfileID) == Trim(stream.archiveProfileID))
  }

  lemma SpeakerAnswers(st: Store, r: Request, kind: Kind, p: Profile)
    requires r.service.kind == "encoder_recorder" && kind != Caption
    ensures AskProfile(st, r, kind, p).Some? <==> Speaks(r, kind, p)
  {
  }

  lemma AnswerIsSelection(st: Store, r: Request, kind: Kind, p: Profile)
    requires r.service.kind == "encoder_recorder" && kind != Caption && Speaks(r, kind, p)
    ensures AskProfile(st, r, kind, p) == Some(Yes) <==> SelectsFor(st, r, kind, p)
  {
    TrimOfTrimmed(Trim(r.streamID));
  }

  lemma {:induction false} ListAsksSpeaker(st: Store, r: Request, kind: Kind, items: seq<Profile>)
    requires r.service.kind == "encoder_recorder" && kind != Caption
    ensures var speaker := SpeakerIn(r, kind, items);
            AskList(st, r, kind, items) == if speaker.None? then None else AskProfile(st, r, kind, speaker.value)
    ensures SpeakerIn(r, kind, items).Some? ==> Speaks(r, kind, SpeakerIn(r, kind, items).value)
  {
    if items != [] {
      SpeakerAnswers(st, r, kind, items[0]);
      ListAsksSpeaker(st, r, kind, items[1..]);
    }
  }

  lemma {:induction false} KindsAskSpeaker(st: Store, r: Request, kinds: seq<Kind>)
    requires r.service.kind == "encoder_recorder" && Caption !in kinds && forall kind :: st.profiles(kind).Some?
    ensures var speaker := SpeakerOf(st, r, kinds);
            AskKinds(st, r, kinds) == if speaker.None? then None else AskProfile(st, r, speaker.value.0, speaker.value.1)
    ensures var speaker := SpeakerOf(st, r, kinds);
            speaker.Some? ==> speaker.value.0 != Caption && Speaks(r, speaker.value.0, speaker.value.1)
  {
    if kinds != [] {
      var kind := kinds[0];
      assert kind in kinds;
      ListAsksSpeaker(st, r, kind, st.profiles(kind).value);
      if SpeakerIn(r, kind, st.profiles(kind).value).Some? {
        SpeakerAnswers(st, r, kind, SpeakerIn(r, kind, st.profiles(kind).value).value);
      }
      KindsAskSpeaker(st, r, kinds[1..]);
    }
  }

  lemma KeysDoNotFail(st: Store, r: Request)
    requires StoresAnswer(st)
    ensures !LiveKeyAllowed(st, r).Error? && !OutputKeyAllowed(st, r).Error?
  {
  }

  /**
   When every store answers, an encoder is allowed exactly: the live key or output
   key of a stream it is primary of; else, if a profile has a say, what the first
   such profile names for a stream that selects it; else a Drive credential of its
   stream's archive destination.
   */
  lemma EncoderAllowedExactlyWhen(st: Store, r: Request)
    requires r.service.kind == "encoder_recorder" && StoresAnswer(st)
    ensures var speaker := SpeakerOf(st, r, [Encoder, Archive, YouTubeOutput, Overlay]);
            Decision(st, r).Yes? <==>
              || IsLiveKey(st, r)
              || IsOutputKey(st, r)
              || (speaker.Some? && SelectsFor(st, r, speaker.value.0, speaker.value.1))
              || (speaker.None? && IsDriveCredential(st, r))
  {
    var kinds := [Encoder, Archive, YouTubeOutput, Overlay];
    var speaker := SpeakerOf(st, r, kinds);
    KeysDoNotFail(st, r);
    LiveKeyAllowedExactlyWhen(st, r);
    OutputKeyAllowedExactlyWhen(st, r);
    KindsAskSpeaker(st, r, kinds);
    IntegrationAllowedExactlyWhen(st, r);
    if speaker.Some? {
      AnswerIsSelection(st, r, speaker.value.0, speaker.value.1);
    }
  }

  // --------------------------------------------------------------------- the worker

  /** The first listed profile that names the secret; later ones are never asked. */
  function FirstReferring(items: seq<Profile>, secretName: string): Option<Profile> {
    if items == [] then None
    else if References(items[0].config, secretName) then Some(items[0])
    else FirstReferring(items[1..], secretName)
  }

  lemma {:induction false} ListAsksFirst(st: Store, r: Request, kind: Kind, items: seq<Profile>)
    requires KindAllowsSecret(kind, r.secretName)
    requires kind == Caption || (kind == Archive && r.service.kind == "encoder_recorder")
    ensures var first := FirstReferring(items, r.secretName);
            AskList(st, r, kind, items) == if first.None? then None else AskProfile(st, r, kind, first.value)
  {
    if items != [] {
      ListAsksFirst(st, r, kind, items[1..]);
    }
  }

  lemma {:induction false} ListIsSilent(st: Store, r: Request, kind: Kind, items: seq<Profile>)
    requires !KindAllowsSecret(kind, r.secretName)
    ensures AskList(st, r, kind, items).None?
  {
    if items != [] {
      ListIsSilent(st, r, kind, items[1..]);
    }
  }

  /** The first caption profile naming the secret is the one the assigned stream selects. */
  ghost predicate IsCaptionKey(st: Store, r: Request) {
    && KindAllowsSecret(Caption, r.secretName)
    && st.profiles(Overlay).Some? && st.profiles(Caption).Some?
    && var first := FirstReferring(st.profiles(Caption).value, r.secretName);
       && first.Some?
       && Assigned(st, r.service.id, Trim(r.streamID))
       && st.stream(Trim(r.streamID)).Found?
       && st.stream(Trim(r.streamID)).value.captionProfileID == first.value.id
  }

  lemma {:induction false} FirstRefers(items: seq<Profile>, secretName: string)
    requires FirstReferring(items, secretName).Some?
    ensures References(FirstReferring(items, secretName).value.config, secretName)
    ensures FirstReferring(items, secretName).value in items
  {
    if !References(items[0].config, secretName) {
      FirstRefers(items[1..], secretName);
    }
  }

  lemma CaptionProfileAnswer(st: Store, r: Request, p: Profile)
    requires r.service.kind == "worker" && KindAllowsSecret(Caption, r.secretName) && References(p.config, r.secretName)
    ensures AskProfile(st, r, Caption, p) == Some(GenericAllowed(st, r, Caption, p.id))
  {
    CaptionNamesAreStreamScoped(r.secretName);
  }

  lemma CaptionAnswer(st: Store, r: Request, items: seq<Profile>)
    requires r.service.kind == "worker" && st.profiles(Caption) == Some(items) && KindAllowsSecret(Caption, r.secretName)
    ensures var first := FirstReferring(items, r.secretName);
            AskList(st, r, Caption, items) == if first.None? then None else Some(GenericAllowed(st, r, Caption, first.value.id))
  {
    ListAsksFirst(st, r, Caption, items);
    var first := FirstReferring(items, r.secretName);
    if first.Some? {
      FirstRefers(items, r.secretName);
      CaptionProfileAnswer(st, r, first.value);
    }
  }

  lemma WorkerAsksCaptions(st: Store, r: Request)
    requires r.service.kind == "worker"
    ensures Decision(st, r).Yes? <==> st.profiles(Overlay).Some? && AskKind(st, r, Caption) == Some(Yes)
  {
    var kinds := KindsFor(r.service.kind);
    assert kinds == [Overlay, Caption] && kinds[1..] == [Caption] && kinds[1..][1..] == [];
    if st.profiles(Overlay).Some? {
      ListIsSilent(st, r, Overlay, st.profiles(Overlay).value);
    }
    assert AskKinds(st, r, [Caption]) == AskKind(st, r, Caption);
  }

  /** A worker is allowed exactly the caption key of a stream it is the primary of. */
  lemma WorkerAllowedExactlyWhen(st: Store, r: Request)
    requires r.service.kind == "worker"
    ensures Decision(st, r).Yes? <==> IsCaptionKey(st, r)
  {
    WorkerAsksCaptions(st, r);
    TrimOfTrimmed(Trim(r.streamID));
    if st.profiles(Caption).Some? {
      if KindAllowsSecret(Caption, r.secretName) {
        CaptionAnswer(st, r, st.profiles(Caption).value);
      } else {
        ListIsSilent(st, r, Caption, st.profiles(Caption).value);
      }
    }
  }

  // ------------------------------------------------------------------------ the bot

  ghost predicate IsOwnBotToken(st: Store, r: Request) {
    && KindAllowsSecret(DiscordConfig, r.secretName)
    && st.profiles(DiscordConfig).Some?
    && exists i | 0 <= i < |st.profiles(DiscordConfig).value| ::
         var p := st.profiles(DiscordConfig).value[i];
         References(p.config, r.secretName) && MatchesService(p.config, r.service.id)
  }

  lemma {:induction false} BotList(st: Store, r: Request, items: seq<Profile>)
    requires r.service.kind == "discord_bot" && KindAllowsSecret(DiscordConfig, r.secretName)
    ensures AskList(st, r, DiscordConfig, items) ==
            if exists i | 0 <= i < |items| :: References(items[i].config, r.secretName) && MatchesService(items[i].config, r.service.id)
            then Some(Yes) else None
  {
    BotTokenIsNotStreamScoped(r.secretName);
    if items != [] {
      BotList(st, r, items[1..]);
      assert forall i | 1 <= i < |items| :: items[i] == items[1..][i - 1];
    }
  }

  lemma {:induction false} BotCaptionsNeverAllow(st: Store, r: Request, items: seq<Profile>)
    requires r.service.kind == "discord_bot"
    ensures AskList(st, r, Caption, items) != Some(Yes)
  {
    if items != [] {
      BotCaptionsNeverAllow(st, r, items[1..]);
      if KindAllowsSecret(Caption, r.secretName) {
        CaptionNamesAreStreamScoped(r.secretName);
      }
    }
  }

  /** A Bot is allowed exactly the bot tokens that a Discord profile bound to it names. */
  lemma BotAllowedExactlyWhen(st: Store, r: Request)
    requires r.service.kind == "discord_bot"
    ensures Decision(st, r).Yes? <==> IsOwnBotToken(st, r)
  {
    var kinds := KindsFor(r.service.kind);
    assert kinds[0] == DiscordConfig && kinds[1..] == [Caption] && kinds[1..][1..] == [];
    if st.profiles(Caption).Some? {
      BotCaptionsNeverAllow(st, r, st.profiles(Caption).value);
    }
    if st.profiles(DiscordConfig).Some? {
      if KindAllowsSecret(DiscordConfig, r.secretName) {
        BotList(st, r, st.profiles(DiscordConfig).value);
      } else {
        ListIsSilent(st, r, DiscordConfig, st.profiles(DiscordConfig).value);
      }
    }
    assert AskKinds(st, r, [Caption]) == AskKind(st, r, Caption);
  }

  /** No other service is ever allowed anything, and none ever sees an error of a store. */
  lemma OthersAreNeverAllowed(st: Store, r: Request)
    requires r.service.kind !in {"encoder_recorder", "worker", "discord_bot"}
    ensures Decision(st, r) == No
  {
  }

  /** Every allowed request of an encoder or a worker is about a stream it is the primary of. */
  lemma AllowedMeansPrimary(st: Store, r: Request)
    requires r.service.kind in {"encoder_recorder", "worker"} && Decision(st, r).Yes?
    ensures Assigned(st, r.service.id, Trim(r.streamID)) || Assigned(st, r.service.id, r.streamID)
  {
    if r.service.kind == "worker" {
      WorkerAllowedExactlyWhen(st, r);
    } else {
      EncoderSecretsAreTheStreams(st, r);
    }
  }

  /** Every assignment of the service to the stream, under either spelling of its id, is a standby one. */
  ghost predicate OnlyStandby(st: Store, serviceID: string, streamID: string) {
    st.assignments(serviceID).Some? ==>
      forall i | 0 <= i < |st.assignments(serviceID).value| ::
        var a := st.assignments(serviceID).value[i];
        a.streamID == streamID || a.streamID == Trim(streamID) ==> Trim(a.role) == "standby"
  }

  /** An encoder or a worker that is only the stream's standby, or has no assignment to it, is never allowed a secret. */
  lemma StandbyIsNeverAllowed(st: Store, r: Request)
    requires r.service.kind in {"encoder_recorder", "worker"} && OnlyStandby(st, r.service.id, r.streamID)
    ensures !Decision(st, r).Yes?
  {
    assert "standby"[0] == 's' && "primary"[0] == 'p';
    if Decision(st, r).Yes? {
      AllowedMeansPrimary(st, r);
    }
  }

  // ------------------------------------------------------- keys that name secrets

  lemma SuffixExactlyWhen(s: string, suffix: string)
    ensures HasSuffix(s, suffix) <==> exists head: string :: s == head + suffix
  {
    if HasSuffix(s, suffix) {
      assert s == s[..|s| - |suffix|] + suffix;
    }
  }

  /** A setting names a secret exactly when its key, apart from case and outer spaces, has one of three endings. */
  lemma ReferenceKeyExactlyWhen(key: string)
    ensures IsReferenceKey(key) <==>
            || (exists head: string :: Lower(Trim(key)) == head + "_secret_name")
            || (exists head: string :: Lower(Trim(key)) == head + "_secret_ref")
            || (exists head: string :: Lower(Trim(key)) == head + "_secret_id")
  {
    SuffixExactlyWhen(Lower(Trim(key)), "_secret_name");
    SuffixExactlyWhen(Lower(Trim(key)), "_secret_ref");
    SuffixExactlyWhen(Lower(Trim(key)), "_secret_id");
  }

  // ----------------------------------------- two caption profiles with one key

  const KEY := "key" + "_secret_name"
  const SHARED := map[KEY := Str("deepgram_api_key")]

  /** Two caption profiles name the same key; the stream selects the second one. */
  function SharedKey(): Store {
    Store(None,
          (kind: Kind, id: string) => Missing,
          (kind: Kind) => Some(if kind == Caption then [Profile("c1", SHARED), Profile("c2", SHARED)] else []),
          (id: string) => Found(Stream("", "", "", "", "c2")),
          (id: string) => Some([Assignment("s", "primary")]),
          (id: string) => Missing,
          (id: string) => Missing,
          (id: string) => Missing,
          (name: string) => Missing)
  }

  /** Whatever else is listed, the first profile that names the key decides. */
  lemma OnlyFirstIsAsked(st: Store, r: Request, items: seq<Profile>)
    requires r.service.kind == "worker" && st.profiles(Caption) == Some(items) && items != []
    requires References(items[0].config, r.secretName)
    requires st.stream(Trim(r.streamID)).Found? && st.stream(Trim(r.streamID)).value.captionProfileID != items[0].id
    ensures !Decision(st, r).Yes?
  {
    WorkerAllowedExactlyWhen(st, r);
    assert FirstReferring(items, r.secretName) == Some(items[0]);
  }

  predicate LowerCase(s: string) {
    forall i | 0 <= i < |s| :: 'a' <= s[i] <= 'z' || s[i] == '_'
  }

  lemma SuffixMakesKey(name: string, suffix: string)
    requires name != "" && LowerCase(name) && LowerCase(suffix) && suffix == "_secret_name"
    ensures IsReferenceKey(name + suffix)
  {
    var key := name + suffix;
    assert forall i | 0 <= i < |key| :: 'a' <= key[i] <= 'z' || key[i] == '_';
    TrimOfTrimmed(key);
    assert Lower(key) == key;
    assert key[|key| - |suffix|..] == suffix;
  }

  lemma ReferenceKey()
    ensures IsReferenceKey(KEY)
  {
    assert LowerCase("key") && LowerCase("_secret_name");
    SuffixMakesKey("key", "_secret_name");
  }

  lemma KeyNameIsTrimmed()
    ensures Trim("deepgram_api_key") == "deepgram_api_key" && Trim("s") == "s"
  {
    var name := "deepgram_api_key";
    assert name[0] == 'd' && name[|name| - 1] == 'y';
    TrimOfTrimmed(name);
  }

  lemma SharedKeyIsNamed()
    ensures References(SHARED, "deepgram_api_key")
  {
    ReferenceKey();
    KeyNameIsTrimmed();
    assert KEY in SHARED && SHARED[KEY] == Str("deepgram_api_key");
  }

  lemma SharedKeyIsAssigned()
    ensures PrimaryAssigned(SharedKey(), "w", "s").Yes?
  {
    var list := [Assignment("s", "primary")];
    assert IsPrimary(list[0], "s");
    assert HasPrimary(list, "s");
  }

  /** Its primary worker is refused the very key its caption profile names. */
  lemma SecondProfileIsRefused()
    ensures SharedKey().profiles(Caption) == Some([Profile("c1", SHARED), Profile("c2", SHARED)])
    ensures SharedKey().stream("s") == Found(Stream("", "", "", "", "c2"))
    ensures References(SHARED, "deepgram_api_key") && PrimaryAssigned(SharedKey(), "w", "s").Yes?
    ensures !Decision(SharedKey(), Request(Service("w", "worker"), "deepgram_api_key", "s", "")).Yes?
  {
    SharedKeyIsNamed();
    SharedKeyIsAssigned();
    KeyNameIsTrimmed();
    assert "c1"[1] != "c2"[1];
    OnlyFirstIsAsked(SharedKey(), Request(Service("w", "worker"), "deepgram_api_key", "s", ""), [Profile("c1", SHARED), Profile("c2", SHARED)]);
  }
}
