/**
 What the dispatcher decides for one claim: from the stream, the provider and
 the assignments before the Bot call, and from the Bot's answer after it.
 Times are in seconds.
 */
module OutboxDispatch {
  import opened Text
  import opened OutboxStore

  // ---------------------------------------------------- what it can observe

  datatype StreamLookup = StreamMissing | StreamError | StreamFound(status: string)

  datatype Credentials = CredentialsOk | AccountUnavailable | CredentialsError

  /** A lifecycle lookup at the provider. */
  datatype Read = ReadNotFound | ReadError | ReadOk(text: string)

  /** The provider as one claim meets it; `second` is the read after a transition request. */
  datatype Provider = Provider(
    client: bool, credentials: Credentials, first: Read,
    transitionClient: bool, transitionFailed: bool, second: Read)

  datatype Assignment = Assignment(serviceType: string, serviceID: string, role: string)

  datatype Assignments = AssignmentsError | Assigned(list: seq<Assignment>)

  datatype Observation = Observation(stream: StreamLookup, provider: Provider, assignments: Assignments, notifier: bool)

  /** The Bot's answer. */
  datatype DispatchResult = DispatchResult(success: bool, statusCode: int, code: string, failurePhase: string, messageID: string)

  // ------------------------------------------------------------- lifecycle

  const TRANSITION_REQUESTED := "youtube_live_transition_requested"
  const TRANSITION_UNKNOWN := "youtube_live_transition_outcome_unknown"

  predicate IsTransitionCode(code: string) {
    code == TRANSITION_REQUESTED || code == TRANSITION_UNKNOWN
  }

  /** Stream-key outputs have no broadcast to ask about. */
  predicate IsStreamKey(mode: string) {
    mode == "stream_key" || mode == "legacy_stream_key"
  }

  datatype Lifecycle = Lifecycle(status: string, ready: bool, terminal: bool, code: string, requested: bool)

  function Status(text: string): string {
    Lower(Trim(text))
  }

  /** The provider check; `requested` says that it asked the provider to go live. */
  function CheckLifecycle(n: Row, p: Provider): Lifecycle {
    if IsStreamKey(n.mode) then Lifecycle("legacy_unverified", true, false, "", false)
    else if !p.client then Lifecycle(n.lifecycle, false, false, "youtube_lifecycle_client_unavailable", false)
    else if p.credentials == AccountUnavailable then Lifecycle(n.lifecycle, false, false, "youtube_oauth_account_unavailable", false)
    else if p.credentials == CredentialsError then Lifecycle(n.lifecycle, false, false, "youtube_lifecycle_credentials_unavailable", false)
    else if p.first == ReadNotFound then Lifecycle(n.lifecycle, false, true, "youtube_broadcast_not_found", false)
    else if p.first == ReadError then Lifecycle(n.lifecycle, false, false, "youtube_broadcast_lifecycle_unavailable", false)
    else
      var status := Status(p.first.text);
      if status == "livestarting" && IsTransitionCode(Trim(n.lastError)) then
        Lifecycle(status, false, false, Trim(n.lastError), false)
      else if status == "livestarting" && p.transitionClient then
        AfterTransition(status, p)
      else
        Settle(n, status)
  }

  function AfterTransition(status: string, p: Provider): (r: Lifecycle)
    ensures r.requested
  {
    var again := if p.second.ReadOk? then Status(p.second.text) else "";
    if again == "live" then Lifecycle(again, true, false, "", true)
    else if again == "complete" || again == "revoked" then Lifecycle(again, false, true, "youtube_lifecycle_" + again, true)
    else Lifecycle(if again == "" then status else again, false, false,
                   if p.transitionFailed then TRANSITION_UNKNOWN else TRANSITION_REQUESTED, true)
  }

  function Settle(n: Row, status: string): (r: Lifecycle)
    ensures !r.requested
  {
    if status == "live" then Lifecycle(status, true, false, "", false)
    else if status == "complete" || status == "revoked" then Lifecycle(status, false, true, "youtube_lifecycle_" + status, false)
    else if status == "" then Lifecycle(n.lifecycle, false, false, "youtube_broadcast_lifecycle_unavailable", false)
    else Lifecycle(status, false, false, "youtube_lifecycle_" + status, false)
  }

  // ------------------------------------------------------ before the Bot call

  const POLL_DELAY := 15

  function RetryDelay(attempt: int): int {
    if attempt <= 1 then 15 else if attempt == 2 then 30 else if attempt == 3 then 60
    else if attempt == 4 then 120 else if attempt == 5 then 300 else if attempt == 6 then 600
    else if attempt == 7 then 1800 else 3600
  }

  function RetrySave(n: Row, state: State, lifecycle: string, code: string, now: int): Save {
    var delay := if state == DispatchPending && n.dispatchAttempts > 0 then RetryDelay(n.dispatchAttempts) else POLL_DELAY;
    Retry(state, lifecycle, code, now + delay)
  }

  predicate IsPrimary(role: string) {
    Trim(Lower(role)) != "standby"
  }

  predicate BotAssigned(a: Assignments, serviceID: string)
    requires a.Assigned?
  {
    exists i | 0 <= i < |a.list| ::
      IsPrimary(a.list[i].role) && a.list[i].serviceType == "discord_bot" && Trim(a.list[i].serviceID) == Trim(serviceID)
  }

  /** Either the claim ends with something to save, or the fence and the Bot call come next. */
  datatype Plan = Finish(save: Save) | Proceed(lifecycle: string)

  function Decide(n: Row, o: Observation, now: int): Plan {
    if o.stream == StreamMissing then Finish(MarkSuppressed(n.lifecycle, "stream_not_live"))
    else if o.stream == StreamError then Finish(RetrySave(n, DispatchPending, n.lifecycle, "stream_lookup_failed", now))
    else if !EqualFold(Trim(o.stream.status), "live") then Finish(MarkSuppressed(n.lifecycle, "stream_not_live"))
    else
      var l := CheckLifecycle(n, o.provider);
      if l.terminal then Finish(MarkSuppressed(l.status, l.code))
      else if !l.ready then Finish(RetrySave(n, AwaitingYouTubeLive, l.status, l.code, now))
      else if o.assignments == AssignmentsError then
        Finish(RetrySave(n, DispatchPending, l.status, "discord_assignment_lookup_failed", now))
      else if !BotAssigned(o.assignments, n.serviceID) then
        Finish(RetrySave(n, DispatchPending, l.status, "discord_bot_target_unavailable", now))
      else if !o.notifier then
        Finish(RetrySave(n, DispatchPending, l.status, "discord_notification_dispatcher_unavailable", now))
      else Proceed(l.status)
  }

  /** Whether deciding asked the provider for the live transition. */
  predicate Requests(n: Row, o: Observation) {
    o.stream.StreamFound? && EqualFold(Trim(o.stream.status), "live") && CheckLifecycle(n, o.provider).requested
  }

  // ------------------------------------------------------- after the Bot call

  /** Explicit receipts that the Bot did not send anything. */
  predicate ConfirmedRetryable(r: DispatchResult) {
    || EqualFold(Trim(r.failurePhase), "pre_dispatch")
    || r.statusCode == 429
    || Trim(r.code) in {"runtime_config_unavailable", "runtime_config_fetch_failed", "notification_capacity_reached",
                        "live_job_not_active", "discord_config_not_found", "discord_rate_limited"}
  }

  function DispatchCode(r: DispatchResult): string {
    var code := Trim(Lower(r.code));
    if code != "" then code
    else if EqualFold(Trim(r.failurePhase), "transport") then "discord_delivery_transport_unknown"
    else if r.statusCode >= 500 then "discord_delivery_server_error_unknown"
    else if r.statusCode == 429 then "discord_rate_limited"
    else if r.statusCode == 0 then "discord_delivery_unknown"
    else "discord_notification_rejected"
  }

  function AfterBot(n: Row, r: DispatchResult, lifecycle: string, now: int): Save {
    if r.success && Trim(r.messageID) != "" then MarkDelivered(lifecycle, r.messageID)
    else if r.success then MarkUnknown(lifecycle, "discord_delivery_receipt_missing")
    else if ConfirmedRetryable(r) then RetrySave(n, DispatchPending, lifecycle, DispatchCode(r), now)
    else if r.statusCode == 0 || r.statusCode >= 500 || EqualFold(Trim(r.failurePhase), "transport") then
      MarkUnknown(lifecycle, DispatchCode(r))
    else MarkSuppressed(lifecycle, DispatchCode(r))
  }

  /** The Bot said in so many words that nothing was sent. */
  predicate NothingSent(r: DispatchResult) {
    !r.success && ConfirmedRetryable(r)
  }

  /** The provider's last word before a claim goes on to the Bot. */
  predicate ProviderSaidLive(n: Row, p: Provider) {
    || (p.first.ReadOk? && Status(p.first.text) == "live")
    || (p.first.ReadOk? && Status(p.first.text) == "livestarting" && p.second.ReadOk? && Status(p.second.text) == "live")
  }

  lemma ReadyNeedsLive(n: Row, p: Provider)
    requires CheckLifecycle(n, p).ready
    ensures IsStreamKey(n.mode) || ProviderSaidLive(n, p)
  {
  }

  /** A claim proceeds only for a live stream whose broadcast the provider says is live, or that has none. */
  lemma ProceedNeedsLive(n: Row, o: Observation, now: int)
    requires Decide(n, o, now).Proceed?
    ensures o.stream.StreamFound? && EqualFold(Trim(o.stream.status), "live")
    ensures IsStreamKey(n.mode) || ProviderSaidLive(n, o.provider)
    ensures o.assignments.Assigned? && BotAssigned(o.assignments, n.serviceID)
  {
    ReadyNeedsLive(n, o.provider);
  }

  // ----------------------------------------------- exactly when a claim goes on

  /** The broadcast was seen live by a provider that could be asked, perhaps only after the transition was requested. */
  ghost predicate SeenLive(n: Row, p: Provider) {
    && p.client && p.credentials == CredentialsOk && p.first.ReadOk?
    && (|| Lower(Trim(p.first.text)) == "live"
        || (Lower(Trim(p.first.text)) == "livestarting" && !IsTransitionCode(Trim(n.lastError)) && p.transitionClient
            && p.second.ReadOk? && Lower(Trim(p.second.text)) == "live"))
  }

  /** The broadcast is over or gone. */
  ghost predicate SeenOver(n: Row, p: Provider) {
    && p.client && p.credentials == CredentialsOk
    && (|| p.first == ReadNotFound
        || (p.first.ReadOk? && (Lower(Trim(p.first.text)) == "complete" || Lower(Trim(p.first.text)) == "revoked"))
        || (p.first.ReadOk? && Lower(Trim(p.first.text)) == "livestarting" && !IsTransitionCode(Trim(n.lastError)) && p.transitionClient
            && p.second.ReadOk? && (Lower(Trim(p.second.text)) == "complete" || Lower(Trim(p.second.text)) == "revoked")))
  }

  ghost predicate StreamIsLive(o: Observation) {
    o.stream.StreamFound? && EqualFold(Trim(o.stream.status), "live")
  }

  /** Some primary assignment of the stream is the notification's Bot. */
  ghost predicate TargetAssigned(o: Observation, serviceID: string) {
    o.assignments.Assigned? && exists i | 0 <= i < |o.assignments.list| ::
      var a := o.assignments.list[i];
      Trim(Lower(a.role)) != "standby" && a.serviceType == "discord_bot" && Trim(a.serviceID) == Trim(serviceID)
  }

  lemma LifecycleExactlyWhen(n: Row, p: Provider)
    ensures CheckLifecycle(n, p).ready <==> IsStreamKey(n.mode) || SeenLive(n, p)
    ensures CheckLifecycle(n, p).terminal <==> !IsStreamKey(n.mode) && SeenOver(n, p)
  {
  }

  /** The Bot is called exactly for a live stream whose broadcast was seen live, or has none, with the Bot still assigned. */
  lemma ProceedsExactlyWhen(n: Row, o: Observation, now: int)
    ensures Decide(n, o, now).Proceed? <==>
            StreamIsLive(o) && (IsStreamKey(n.mode) || SeenLive(n, o.provider)) && TargetAssigned(o, n.serviceID) && o.notifier
  {
    LifecycleExactlyWhen(n, o.provider);
  }

  /** The notification is given up before a Bot call exactly when the stream is not live or the broadcast is over. */
  lemma SuppressedExactlyWhen(n: Row, o: Observation, now: int)
    ensures (Decide(n, o, now).Finish? && Decide(n, o, now).save.MarkSuppressed?) <==>
            (o.stream.StreamMissing? || (o.stream.StreamFound? && !StreamIsLive(o))
             || (StreamIsLive(o) && !IsStreamKey(n.mode) && SeenOver(n, o.provider)))
    ensures Decide(n, o, now).Finish? ==> Decide(n, o, now).save.Retry? || Decide(n, o, now).save.MarkSuppressed?
  {
    LifecycleExactlyWhen(n, o.provider);
  }

  /** Each further Bot call waits longer than the one before, from a quarter of a minute up to an hour. */
  lemma RetriesBackOff(a: int, b: int)
    requires a <= b
    ensures 15 <= RetryDelay(a) <= RetryDelay(b) <= 3600
    ensures 1 <= a < b <= 8 ==> RetryDelay(a) < RetryDelay(b)
    ensures a <= 1 ==> RetryDelay(a) == 15
    ensures b >= 8 ==> RetryDelay(b) == 3600
  {
  }

  // --------------------------------------------------------- what an answer means

  /** What is saved for a failure that no phase and no receipt code explains: the status decides. */
  function ByStatus(n: Row, status: int, lifecycle: string, code: string, now: int): Save {
    if status == 429 then Retry(DispatchPending, lifecycle, code, now + (if n.dispatchAttempts > 0 then RetryDelay(n.dispatchAttempts) else 15))
    else if status == 0 || status >= 500 then MarkUnknown(lifecycle, code)
    else MarkSuppressed(lifecycle, code)
  }

  /** The code of a failure that came without one. */
  function StatusCode(status: int): string {
    if status == 429 then "discord_rate_limited"
    else if status == 0 then "discord_delivery_unknown"
    else if status >= 500 then "discord_delivery_server_error_unknown"
    else "discord_notification_rejected"
  }

  lemma BlankIsNothing()
    ensures !EqualFold("", "pre_dispatch") && !EqualFold("", "transport")
  {
  }

  lemma BlankIsTrimmed(s: string)
    requires Trim(s) == ""
    ensures Trim(Lower(s)) == ""
  {
    var before, after := TrimDecomposes(s);
    assert AllSpace(s);
    assert forall i | 0 <= i < |s| :: Lower(s)[i] == s[i];
    assert Lower(s) == s;
  }

  /** A failure with neither phase nor code: too many requests is a retry, no or a server's answer is unknown, the rest is refused. */
  lemma StatusSpeaks(n: Row, r: DispatchResult, lifecycle: string, now: int)
    requires !r.success && Trim(r.code) == "" && Trim(r.failurePhase) == ""
    ensures AfterBot(n, r, lifecycle, now) == ByStatus(n, r.statusCode, lifecycle, StatusCode(r.statusCode), now)
  {
    BlankIsNothing();
    BlankIsTrimmed(r.code);
  }

  /** A transport failure without a code is unknown, unless the status says too many requests. */
  lemma TransportSpeaks(n: Row, r: DispatchResult, lifecycle: string, now: int)
    requires !r.success && Trim(r.code) == "" && EqualFold(Trim(r.failurePhase), "transport") && r.statusCode != 429
    ensures AfterBot(n, r, lifecycle, now) == MarkUnknown(lifecycle, "discord_delivery_transport_unknown")
  {
    BlankIsTrimmed(r.code);
    assert |"transport"| == 9 && |"pre_dispatch"| == 12;
  }

  /** A failure before the dispatch, or one of the Bot's own receipts, is retried. */
  lemma ReceiptSpeaks(n: Row, r: DispatchResult, lifecycle: string, now: int)
    requires !r.success && (EqualFold(Trim(r.failurePhase), "pre_dispatch") || IsReceipt(Trim(r.code)))
    ensures AfterBot(n, r, lifecycle, now).Retry? && AfterBot(n, r, lifecycle, now).state == DispatchPending
  {
  }

  /** A success is a delivery exactly when it names the message. */
  lemma SuccessSpeaks(n: Row, r: DispatchResult, lifecycle: string, now: int)
    requires r.success
    ensures AfterBot(n, r, lifecycle, now) ==
            if Trim(r.messageID) == "" then MarkUnknown(lifecycle, "discord_delivery_receipt_missing") else MarkDelivered(lifecycle, r.messageID)
  {
  }

  /** The Bot's own words for "not sent". */
  predicate IsReceipt(code: string) {
    || code == "runtime_config_unavailable" || code == "runtime_config_fetch_failed"
    || code == "notification_capacity_reached" || code == "live_job_not_active"
    || code == "discord_config_not_found" || code == "discord_rate_limited"
  }

  /** An answer after which nothing may be posted again: a success, or a failure with no receipt, before no dispatch, and not for rate. */
  predicate Final(r: DispatchResult) {
    r.success || (!IsReceipt(Trim(r.code)) && !EqualFold(Trim(r.failurePhase), "pre_dispatch") && r.statusCode != 429)
  }

  /** A failure that proves neither that the post was made nor that it was not: no answer, a server's error, or a broken transport. */
  predicate Unclear(r: DispatchResult) {
    !r.success && Final(r) && (r.statusCode == 0 || r.statusCode >= 500 || EqualFold(Trim(r.failurePhase), "transport"))
  }

  /** Whatever the code: a final failure is saved as unknown if it is unclear, and else as suppressed. */
  lemma FinalFailureSpeaks(n: Row, r: DispatchResult, lifecycle: string, now: int)
    requires Final(r) && !r.success
    ensures AfterBot(n, r, lifecycle, now).MarkUnknown? <==> Unclear(r)
    ensures AfterBot(n, r, lifecycle, now).MarkSuppressed? <==> !Unclear(r)
  {
  }

  lemma FinalIsNotRetried(r: DispatchResult)
    requires Final(r)
    ensures !NothingSent(r)
  {
  }

  // ------------------------------------------------- which answers can be saved

  /** The Bot's code is none at all, or one the store takes. */
  predicate UsableCode(r: DispatchResult) {
    Trim(Lower(r.code)) == "" || IsCode(Trim(Lower(r.code)))
  }

  lemma LowerTwice(s: string)
    ensures Lower(Trim(Trim(Lower(s)))) == Trim(Lower(s))
  {
    var t := Trim(Lower(s));
    TrimOfTrimmed(t);
    var before, after := TrimDecomposes(Lower(s));
    forall i | 0 <= i < |t|
      ensures LowerChar(t[i]) == t[i]
    {
      assert t[i] == Lower(s)[|before| + i] == LowerChar(s[|before| + i]);
    }
    assert Lower(t) == t;
  }

  lemma TextIsCode(text: string)
    requires 0 < |text| <= 128 && forall i | 0 <= i < |text| :: IsCodeChar(text[i])
    ensures IsCode(Lower(Trim(text)))
  {
    CodeIsNormal(text);
    CodeExactlyWhen(text);
  }

  lemma OwnCodesAreCodes(r: DispatchResult)
    requires Trim(Lower(r.code)) == ""
    ensures IsCode(Lower(Trim(DispatchCode(r))))
  {
    var code := DispatchCode(r);
    assert code[0] == 'd' && |code| <= 128;
    LongCodeLetters();
    ShortCodeLetters();
    TextIsCode(code);
  }

  predicate CodeChars(text: string) {
    forall i | 0 <= i < |text| :: IsCodeChar(text[i])
  }

  lemma LongCodeLetters()
    ensures CodeChars("discord_delivery_transport_unknown") && CodeChars("discord_delivery_server_error_unknown")
  {
  }

  lemma ShortCodeLetters()
    ensures CodeChars("discord_rate_limited") && CodeChars("discord_delivery_unknown") && CodeChars("discord_notification_rejected")
  {
  }

  lemma MissingReceiptIsCode()
    ensures IsCode(Lower(Trim("discord_delivery_receipt_missing")))
  {
    var code := "discord_delivery_receipt_missing";
    assert CodeChars(code);
    TextIsCode(code);
  }

  /**
   What the Bot answered can be saved exactly when a failure has no code or a proper
   one, and a success names no message or one that can be kept with its lifecycle.
   */
  lemma AnswerAcceptedExactlyWhen(n: Row, r: DispatchResult, lifecycle: string, now: int)
    ensures WellFormed(AfterBot(n, r, lifecycle, now)) <==>
            if !r.success then UsableCode(r)
            else Trim(r.messageID) == "" || (IsOpaque(Trim(r.messageID)) && IsCode(Lower(Trim(lifecycle))))
  {
    MissingReceiptIsCode();
    if Trim(Lower(r.code)) == "" {
      OwnCodesAreCodes(r);
    } else {
      LowerTwice(r.code);
    }
  }

  /**
   A failure with any other code is never saved, not even one that confirms that
   nothing was sent: whoever holds the row and whenever. The row behind the fence
   is then never due again and ends as an unknown delivery.
   */
  lemma OddCodeIsNeverSaved(n: Row, r: DispatchResult, lifecycle: string, at: int, row: Row, token: string, now: int)
    requires !r.success && !UsableCode(r)
    ensures !CanSave(row, token, AfterBot(n, r, lifecycle, at), now)
  {
    AnswerAcceptedExactlyWhen(n, r, lifecycle, at);
    SaveAcceptedExactlyWhen(row, token, AfterBot(n, r, lifecycle, at), now);
  }

  /** A text made of code characters is its own normal form. */
  lemma CodeIsNormal(code: string)
    requires 0 < |code| <= 128 && forall i | 0 <= i < |code| :: IsCodeChar(code[i])
    ensures NormalizeCode(code) == code && Trim(code) == code
  {
    forall i | 0 <= i < |code|
      ensures !IsSpace(code[i]) && Lower(code)[i] == code[i]
    {
      CodeCharIsPlain(code[i]);
    }
    TrimOfTrimmed(code);
    assert Lower(code) == code;
  }

  lemma CodeCharIsPlain(c: char)
    requires IsCodeChar(c)
    ensures !IsSpace(c) && LowerChar(c) == c
  {
  }

  lemma TransitionCodesAreCodes(code: string)
    requires IsTransitionCode(code)
    ensures NormalizeCode(code) == code && Trim(code) == code
  {
    assert forall i | 0 <= i < |TRANSITION_REQUESTED| :: IsCodeChar(TRANSITION_REQUESTED[i]);
    assert forall i | 0 <= i < |TRANSITION_UNKNOWN| :: IsCodeChar(TRANSITION_UNKNOWN[i]);
    CodeIsNormal(code);
  }
}
