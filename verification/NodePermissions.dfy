/**
 The permission projection shown before a node token is created, against the
 two validators that enforce it.
 */
module NodePermissions {
  import opened Text

  /** The permissions involved, in the canonical order of the projection. */
  datatype Permission =
    | APITokensCreate | APITokensRevoke | SecretsUpdate | SystemUpdatesExecute
    | StreamsStart | StreamsStop | RemediationExecute

  const Order: seq<Permission> := [
    APITokensCreate, APITokensRevoke, SecretsUpdate, SystemUpdatesExecute,
    StreamsStart, StreamsStop, RemediationExecute]

  /** What an actor may do; only ever asked one permission at a time. */
  type Actor = Permission -> bool

  // ------------------------------------------------------------------ projection

  /** The switch of the projection. */
  function SwitchPermission(scope: string): Option<Permission> {
    if scope == "service.secret.resolve" then Some(SecretsUpdate)
    else if scope == "updates.claim" || scope == "updates.report" || scope == "updates.authorize" then Some(SystemUpdatesExecute)
    else if scope == "streams.start" then Some(StreamsStart)
    else if scope == "streams.stop" then Some(StreamsStop)
    else if scope == "remediation.execute" then Some(RemediationExecute)
    else None
  }

  predicate HoldsSecrets(serviceType: string) {
    Trim(serviceType) in {"worker", "encoder_recorder", "update_agent"}
  }

  /** Which permissions a token needs, said without the loop. */
  ghost predicate Needs(serviceType: string, scopes: seq<string>, rotation: bool, p: Permission) {
    || p == APITokensCreate
    || (p == APITokensRevoke && rotation)
    || (p == SecretsUpdate && HoldsSecrets(serviceType))
    || NeedsForScopes(scopes, p)
  }

  ghost predicate NeedsForScopes(scopes: seq<string>, p: Permission) {
    exists i | 0 <= i < |scopes| :: SwitchPermission(Trim(scopes[i])) == Some(p)
  }

  /** The members of a set in canonical order. */
  function InOrder(required: set<Permission>, order: seq<Permission>): seq<Permission> {
    if order == [] then []
    else
      var n := |order| - 1;
      InOrder(required, order[..n]) + (if order[n] in required then [order[n]] else [])
  }

  ghost function RequiredSet(serviceType: string, scopes: seq<string>, rotation: bool): set<Permission> {
    set p: Permission | Needs(serviceType, scopes, rotation, p)
  }

  ghost function Required(serviceType: string, scopes: seq<string>, rotation: bool): seq<Permission> {
    InOrder(RequiredSet(serviceType, scopes, rotation), Order)
  }

  method NodeActionRequiredPermissions(serviceType: string, scopes: seq<string>, rotation: bool) returns (out: seq<Permission>)
    ensures out == Required(serviceType, scopes, rotation)
  {
    var required := {APITokensCreate};
    if rotation {
      required := required + {APITokensRevoke};
    }
    required := CollectForScopes(scopes, required);
    if HoldsSecrets(serviceType) {
      required := required + {SecretsUpdate};
    }
    assert required == RequiredSet(serviceType, scopes, rotation);
    out := ListInOrder(required, Order);
  }

  /** The loop over the scopes. */
  method CollectForScopes(scopes: seq<string>, base: set<Permission>) returns (required: set<Permission>)
    ensures forall p :: p in required <==> p in base || NeedsForScopes(scopes, p)
  {
    required := base;
    for i := 0 to |scopes|
      invariant Collected(required, base, scopes[..i])
    {
      var p := SwitchPermission(Trim(scopes[i]));
      CollectedNext(required, base, scopes, i);
      if p.Some? {
        required := required + {p.value};
      }
    }
    assert scopes[..|scopes|] == scopes;
  }

  ghost predicate Collected(required: set<Permission>, base: set<Permission>, scopes: seq<string>) {
    forall p :: p in required <==> p in base || NeedsForScopes(scopes, p)
  }

  lemma CollectedNext(required: set<Permission>, base: set<Permission>, scopes: seq<string>, i: nat)
    requires i < |scopes| && Collected(required, base, scopes[..i])
    ensures var p := SwitchPermission(Trim(scopes[i]));
            Collected(if p.Some? then required + {p.value} else required, base, scopes[..i + 1])
  {
    ScopesGrow(scopes, i);
  }

  method ListInOrder(required: set<Permission>, order: seq<Permission>) returns (out: seq<Permission>)
    ensures out == InOrder(required, order)
  {
    out := [];
    for i := 0 to |order|
      invariant out == InOrder(required, order[..i])
    {
      assert order[..i + 1][..i] == order[..i];
      if order[i] in required {
        out := out + [order[i]];
      }
    }
    assert order[..|order|] == order;
  }

  lemma ScopesGrow(scopes: seq<string>, i: nat)
    requires i < |scopes|
    ensures forall p :: NeedsForScopes(scopes[..i + 1], p) <==> NeedsForScopes(scopes[..i], p) || SwitchPermission(Trim(scopes[i])) == Some(p)
  {
    var next, done := scopes[..i + 1], scopes[..i];
    assert next == done + [scopes[i]];
    forall p
      ensures NeedsForScopes(next, p) <==> NeedsForScopes(done, p) || SwitchPermission(Trim(scopes[i])) == Some(p)
    {
      assert forall j | 0 <= j < i :: next[j] == done[j];
      assert next[i] == scopes[i];
    }
  }

  /** What the actor lacks, in the same order. */
  function Lacking(actor: Actor, required: seq<Permission>): seq<Permission> {
    if required == [] then []
    else
      var n := |required| - 1;
      Lacking(actor, required[..n]) + (if actor(required[n]) then [] else [required[n]])
  }

  method AllowedNodeAuthority(actor: Actor, serviceType: string, scopes: seq<string>, rotation: bool)
    returns (required: seq<Permission>, missing: seq<Permission>)
    ensures required == Required(serviceType, scopes, rotation)
    ensures missing == Lacking(actor, required)
  {
    required := NodeActionRequiredPermissions(serviceType, scopes, rotation);
    missing := [];
    for i := 0 to |required|
      invariant missing == Lacking(actor, required[..i])
    {
      assert required[..i + 1][..i] == required[..i];
      if !actor(required[i]) {
        missing := missing + [required[i]];
      }
    }
    assert required[..|required|] == required;
  }

  // ---------------------------------------------------------------- the validators

  /** The table of the scope validator, written apart from the switch. */
  const ScopeTable: map<string, Permission> := map[
    "service.secret.resolve" := SecretsUpdate,
    "remediation.execute" := RemediationExecute,
    "streams.start" := StreamsStart,
    "streams.stop" := StreamsStop,
    "updates.claim" := SystemUpdatesExecute,
    "updates.report" := SystemUpdatesExecute,
    "updates.authorize" := SystemUpdatesExecute]

  predicate ScopeAccepted(actor: Actor, scope: string) {
    Trim(scope) in ScopeTable ==> actor(ScopeTable[Trim(scope)])
  }

  method ValidateServiceTokenScopePermissions(actor: Actor, scopes: seq<string>) returns (ok: bool)
    ensures ok <==> forall i | 0 <= i < |scopes| :: ScopeAccepted(actor, scopes[i])
  {
    for i := 0 to |scopes|
      invariant forall j | 0 <= j < i :: ScopeAccepted(actor, scopes[j])
    {
      var scope := Trim(scopes[i]);
      if scope in ScopeTable && !actor(ScopeTable[scope]) {
        assert !ScopeAccepted(actor, scopes[i]);
        return false;
      }
    }
    return true;
  }

  predicate ConfigurationAccepted(actor: Actor, serviceType: string) {
    Trim(serviceType) in {"worker", "encoder_recorder", "update_agent"} ==> actor(SecretsUpdate)
  }

  ghost predicate Enforced(actor: Actor, serviceType: string, scopes: seq<string>) {
    && (forall i | 0 <= i < |scopes| :: ScopeAccepted(actor, scopes[i]))
    && ConfigurationAccepted(actor, serviceType)
  }

  /** The switch and the table say the same of every text. */
  lemma SwitchIsTable(scope: string)
    ensures SwitchPermission(scope) == if scope in ScopeTable then Some(ScopeTable[scope]) else None
  {
  }

  // ------------------------------------------------------------------- the theorems

  lemma {:induction false} InOrderMembers(required: set<Permission>, order: seq<Permission>, p: Permission)
    ensures p in InOrder(required, order) <==> p in required && p in order
  {
    if order != [] {
      var n := |order| - 1;
      InOrderMembers(required, order[..n], p);
      assert order == order[..n] + [order[n]];
    }
  }

  lemma EveryPermissionIsOrdered(p: Permission)
    ensures p in Order
  {
    match p
    case APITokensCreate => assert Order[0] == p;
    case APITokensRevoke => assert Order[1] == p;
    case SecretsUpdate => assert Order[2] == p;
    case SystemUpdatesExecute => assert Order[3] == p;
    case StreamsStart => assert Order[4] == p;
    case StreamsStop => assert Order[5] == p;
    case RemediationExecute => assert Order[6] == p;
  }

  ghost predicate MayAll(actor: Actor, required: seq<Permission>) {
    forall i | 0 <= i < |required| :: actor(required[i])
  }

  lemma MayAllBut(actor: Actor, required: seq<Permission>)
    requires required != []
    ensures MayAll(actor, required) <==> MayAll(actor, required[..|required| - 1]) && actor(required[|required| - 1])
  {
    var n := |required| - 1;
    assert forall i | 0 <= i < n :: required[..n][i] == required[i];
  }

  lemma {:induction false} LackingIsEmptyExactlyWhen(actor: Actor, required: seq<Permission>)
    ensures Lacking(actor, required) == [] <==> MayAll(actor, required)
  {
    if required != [] {
      var n := |required| - 1;
      LackingIsEmptyExactlyWhen(actor, required[..n]);
      MayAllBut(actor, required);
    }
  }

  /** The required list holds exactly what is needed. */
  lemma RequiredIsNeeded(serviceType: string, scopes: seq<string>, rotation: bool, p: Permission)
    ensures p in Required(serviceType, scopes, rotation) <==> Needs(serviceType, scopes, rotation, p)
  {
    InOrderMembers(RequiredSet(serviceType, scopes, rotation), Order, p);
    EveryPermissionIsOrdered(p);
  }

  lemma ScopesAcceptedExactlyWhen(actor: Actor, scopes: seq<string>)
    ensures (forall i | 0 <= i < |scopes| :: ScopeAccepted(actor, scopes[i])) <==> (forall p | NeedsForScopes(scopes, p) :: actor(p))
  {
    forall i | 0 <= i < |scopes|
      ensures ScopeAccepted(actor, scopes[i]) <==> (SwitchPermission(Trim(scopes[i])).Some? ==> actor(SwitchPermission(Trim(scopes[i])).value))
    {
      SwitchIsTable(Trim(scopes[i]));
    }
    if forall p | NeedsForScopes(scopes, p) :: actor(p) {
      forall i | 0 <= i < |scopes|
        ensures ScopeAccepted(actor, scopes[i])
      {
        var p := SwitchPermission(Trim(scopes[i]));
        assert p.Some? ==> NeedsForScopes(scopes, p.value);
      }
    }
  }

  /**
   The projection reports nothing missing exactly when the actor may create (and,
   for a rotation, revoke) tokens and both validators accept.
   */
  lemma ProjectionIsEnforcement(actor: Actor, serviceType: string, scopes: seq<string>, rotation: bool)
    ensures Lacking(actor, Required(serviceType, scopes, rotation)) == []
       <==> actor(APITokensCreate) && (rotation ==> actor(APITokensRevoke)) && Enforced(actor, serviceType, scopes)
  {
    var required := Required(serviceType, scopes, rotation);
    LackingIsEmptyExactlyWhen(actor, required);
    forall p
      ensures p in required <==> Needs(serviceType, scopes, rotation, p)
    {
      RequiredIsNeeded(serviceType, scopes, rotation, p);
    }
    assert MayAll(actor, required) <==> forall p | p in required :: actor(p);
    assert (forall p | p in required :: actor(p)) <==> (forall p | Needs(serviceType, scopes, rotation, p) :: actor(p));
    NeedsSplit(actor, serviceType, scopes, rotation);
    ScopesAcceptedExactlyWhen(actor, scopes);
  }

  lemma NeedsSplit(actor: Actor, serviceType: string, scopes: seq<string>, rotation: bool)
    ensures (forall p | Needs(serviceType, scopes, rotation, p) :: actor(p)) <==>
            && actor(APITokensCreate) && (rotation ==> actor(APITokensRevoke))
            && ConfigurationAccepted(actor, serviceType)
            && (forall p | NeedsForScopes(scopes, p) :: actor(p))
  {
    assert Needs(serviceType, scopes, rotation, APITokensCreate);
    assert rotation ==> Needs(serviceType, scopes, rotation, APITokensRevoke);
    assert HoldsSecrets(serviceType) ==> Needs(serviceType, scopes, rotation, SecretsUpdate);
    assert forall p | NeedsForScopes(scopes, p) :: Needs(serviceType, scopes, rotation, p);
  }

  ghost predicate Canonical(out: seq<Permission>) {
    forall i, j | 0 <= i < j < |out| :: Rank(out[i]) < Rank(out[j])
  }

  function Rank(p: Permission): nat {
    match p
    case APITokensCreate => 0
    case APITokensRevoke => 1
    case SecretsUpdate => 2
    case SystemUpdatesExecute => 3
    case StreamsStart => 4
    case StreamsStop => 5
    case RemediationExecute => 6
  }

  lemma {:induction false} InOrderIsCanonical(required: set<Permission>, order: seq<Permission>)
    requires Canonical(order)
    ensures Canonical(InOrder(required, order))
  {
    if order != [] {
      var n := |order| - 1;
      InOrderIsCanonical(required, order[..n]);
      forall p | p in InOrder(required, order[..n])
        ensures Rank(p) < Rank(order[n])
      {
        InOrderMembers(required, order[..n], p);
      }
    }
  }

  /** The required list has no duplicates and is in canonical order. */
  lemma RequiredIsCanonical(serviceType: string, scopes: seq<string>, rotation: bool)
    ensures Canonical(Required(serviceType, scopes, rotation))
  {
    assert forall i | 0 <= i < |Order| :: Rank(Order[i]) == i;
    InOrderIsCanonical(RequiredSet(serviceType, scopes, rotation), Order);
  }

  lemma {:induction false} InOrderOfSmaller(a: set<Permission>, b: set<Permission>, order: seq<Permission>)
    requires a <= b
    ensures InOrder(a, InOrder(b, order)) == InOrder(a, order)
  {
    if order != [] {
      var n := |order| - 1;
      InOrderOfSmaller(a, b, order[..n]);
      var rest := InOrder(b, order[..n]);
      if order[n] in b {
        assert (rest + [order[n]])[..|rest|] == rest;
      } else {
        assert rest + [] == rest;
      }
    }
  }

  /** More scopes never need less: the shorter list is the longer one with entries left out. */
  lemma RequiredIsMonotone(serviceType: string, fewer: seq<string>, more: seq<string>, rotation: bool)
    requires forall s | s in fewer :: s in more
    ensures Required(serviceType, fewer, rotation)
         == InOrder(RequiredSet(serviceType, fewer, rotation), Required(serviceType, more, rotation))
    ensures forall p | p in Required(serviceType, fewer, rotation) :: p in Required(serviceType, more, rotation)
  {
    var a, b := RequiredSet(serviceType, fewer, rotation), RequiredSet(serviceType, more, rotation);
    forall p | p in a
      ensures p in b
    {
      if NeedsForScopes(fewer, p) {
        var i :| 0 <= i < |fewer| && SwitchPermission(Trim(fewer[i])) == Some(p);
        assert fewer[i] in fewer;
        var j :| 0 <= j < |more| && more[j] == fewer[i];
        assert NeedsForScopes(more, p);
      }
    }
    InOrderOfSmaller(a, b, Order);
    forall p | p in Required(serviceType, fewer, rotation)
      ensures p in Required(serviceType, more, rotation)
    {
      InOrderMembers(a, Order, p);
      InOrderMembers(b, Order, p);
    }
  }

  // ------------------------------------------------------------------- registration

  predicate KnownServiceType(serviceType: string) {
    Trim(serviceType) in {"discord_bot", "encoder_recorder", "worker", "observability", "update_agent"}
  }

  function ScopesByType(serviceType: string, allowRemediation: bool): seq<string> {
    match serviceType
    case "discord_bot" => ["discord.status.write", "streams.start", "streams.stop"]
    case "encoder_recorder" => ["encoder.status.write", "observability.ingest"]
    case "worker" => ["worker.events.write", "observability.ingest"]
    case "observability" =>
      ["observability.ingest", "notifications.email.send"] + (if allowRemediation then ["remediation.execute"] else [])
    case "update_agent" => ["updates.claim", "updates.report", "updates.authorize"]
    case _ => []
  }

  /** A service type is known exactly when it has scopes of its own. */
  lemma KnownHasScopes(serviceType: string)
    ensures KnownServiceType(serviceType) <==> ScopesByType(Trim(serviceType), false) != []
  {
  }

  function RegistrationScopes(serviceType: string, allowRuntimeSecrets: bool, allowRemediation: bool): seq<string> {
    ["service.register", "service.heartbeat", "service.config.read", "service.logs.write", "service.status.write"]
    + ScopesByType(serviceType, allowRemediation)
    + (if serviceType == "encoder_recorder" || allowRuntimeSecrets then ["service.secret.resolve"] else [])
  }

  datatype Disposition = NotApplicable | Unknown | Denied(missing: seq<Permission>) | Allowed

  /** The projection for a registration; `valid` is the store's own check of a scope list. */
  method ProjectRegistration(
    actor: Actor, valid: (string, seq<string>) -> bool, serviceType: string, allowRuntimeSecrets: bool, allowRemediation: bool)
    returns (d: Disposition)
    ensures d.NotApplicable? <==> !KnownServiceType(serviceType)
    ensures var scopes := RegistrationScopes(serviceType, allowRuntimeSecrets, allowRemediation);
            && (d.Unknown? <==> KnownServiceType(serviceType) && !valid(serviceType, scopes))
            && (d.Allowed? <==> KnownServiceType(serviceType) && valid(serviceType, scopes)
                                && actor(APITokensCreate) && Enforced(actor, serviceType, scopes))
            && (d.Denied? ==> d.missing != [] && d.missing == Lacking(actor, Required(serviceType, scopes, false)))
  {
    if !KnownServiceType(serviceType) {
      return NotApplicable;
    }
    var scopes := RegistrationScopes(serviceType, allowRuntimeSecrets, allowRemediation);
    if !valid(serviceType, scopes) {
      return Unknown;
    }
    var required, missing := AllowedNodeAuthority(actor, serviceType, scopes, false);
    ProjectionIsEnforcement(actor, serviceType, scopes, false);
    if |missing| > 0 {
      return Denied(missing);
    }
    return Allowed;
  }

  /** The gates of the registration handler itself. */
  method CheckRegistration(actor: Actor, serviceType: string, allowRuntimeSecrets: bool, allowRemediation: bool) returns (ok: bool)
    ensures ok <==> Enforced(actor, serviceType, RegistrationScopes(serviceType, allowRuntimeSecrets, allowRemediation))
  {
    var scopes := RegistrationScopes(serviceType, allowRuntimeSecrets, allowRemediation);
    ok := ValidateServiceTokenScopePermissions(actor, scopes);
    return ok && ConfigurationAccepted(actor, serviceType);
  }

  // ------------------------------------------------- what a registration needs

  /** The permissions a registration needs, type by type. */
  function RegistrationPermissions(serviceType: string, allowRuntimeSecrets: bool, allowRemediation: bool): set<Permission> {
    {APITokensCreate}
    + (if allowRuntimeSecrets then {SecretsUpdate} else {})
    + match serviceType
      case "discord_bot" => {StreamsStart, StreamsStop}
      case "encoder_recorder" => {SecretsUpdate}
      case "worker" => {SecretsUpdate}
      case "observability" => if allowRemediation then {RemediationExecute} else {}
      case "update_agent" => {SecretsUpdate, SystemUpdatesExecute}
      case _ => {}
  }

  /** What a scope needs, as a set. */
  function PermissionsFor(scope: string): set<Permission> {
    var p := SwitchPermission(Trim(scope));
    if p.Some? then {p.value} else {}
  }

  ghost function ScopePermissions(scopes: seq<string>): set<Permission> {
    set p: Permission | NeedsForScopes(scopes, p)
  }

  lemma PermissionsJoin(a: seq<string>, b: seq<string>)
    ensures ScopePermissions(a + b) == ScopePermissions(a) + ScopePermissions(b)
  {
    var all := a + b;
    assert forall i | 0 <= i < |a| :: all[i] == a[i];
    assert forall i | 0 <= i < |b| :: all[|a| + i] == b[i];
  }

  lemma PermissionsOfOne(scope: string)
    ensures ScopePermissions([scope]) == PermissionsFor(scope)
  {
    assert [scope][0] == scope;
  }

  lemma PermissionsOfTwo(a: string, b: string)
    ensures ScopePermissions([a, b]) == PermissionsFor(a) + PermissionsFor(b)
  {
    assert [a, b] == [a] + [b];
    PermissionsJoin([a], [b]);
    PermissionsOfOne(a);
    PermissionsOfOne(b);
  }

  lemma PermissionsOfThree(a: string, b: string, c: string)
    ensures ScopePermissions([a, b, c]) == PermissionsFor(a) + PermissionsFor(b) + PermissionsFor(c)
  {
    assert [a, b, c] == [a, b] + [c];
    PermissionsJoin([a, b], [c]);
    PermissionsOfTwo(a, b);
    PermissionsOfOne(c);
  }

  lemma PlainScope(scope: string)
    requires scope != "" && 'a' <= scope[0] <= 'z' && 'a' <= scope[|scope| - 1] <= 'z'
    ensures Trim(scope) == scope
  {
    TrimOfTrimmed(scope);
  }

  lemma CommonScopes()
    ensures PermissionsFor("service.register") == PermissionsFor("service.heartbeat") == PermissionsFor("service.config.read") == {}
    ensures PermissionsFor("service.logs.write") == PermissionsFor("service.status.write") == {}
    ensures PermissionsFor("service.secret.resolve") == {SecretsUpdate}
  {
    PlainScope("service.register");
    PlainScope("service.heartbeat");
    PlainScope("service.config.read");
    PlainScope("service.logs.write");
    PlainScope("service.status.write");
    PlainScope("service.secret.resolve");
  }

  lemma BotScopes()
    ensures ScopePermissions(["discord.status.write", "streams.start", "streams.stop"]) == {StreamsStart, StreamsStop}
  {
    PlainScope("discord.status.write");
    PlainScope("streams.start");
    PlainScope("streams.stop");
    PermissionsOfThree("discord.status.write", "streams.start", "streams.stop");
  }

  lemma UpdateScopes()
    ensures ScopePermissions(["updates.claim", "updates.report", "updates.authorize"]) == {SystemUpdatesExecute}
  {
    PlainScope("updates.claim");
    PlainScope("updates.report");
    PlainScope("updates.authorize");
    PermissionsOfThree("updates.claim", "updates.report", "updates.authorize");
  }

  lemma IngestScopes()
    ensures ScopePermissions(["encoder.status.write", "observability.ingest"]) == {}
    ensures ScopePermissions(["worker.events.write", "observability.ingest"]) == {}
  {
    PlainScope("encoder.status.write");
    PlainScope("worker.events.write");
    PlainScope("observability.ingest");
    PermissionsOfTwo("encoder.status.write", "observability.ingest");
    PermissionsOfTwo("worker.events.write", "observability.ingest");
  }

  lemma ObservabilityScopes(allowRemediation: bool)
    ensures ScopePermissions(ScopesByType("observability", allowRemediation)) == if allowRemediation then {RemediationExecute} else {}
  {
    var base := ["observability.ingest", "notifications.email.send"];
    PlainScope("observability.ingest");
    PlainScope("notifications.email.send");
    PlainScope("remediation.execute");
    PermissionsOfTwo("observability.ingest", "notifications.email.send");
    PermissionsOfOne("remediation.execute");
    PermissionsJoin(base, if allowRemediation then ["remediation.execute"] else []);
  }

  lemma BaseScopes()
    ensures ScopePermissions(["service.register", "service.heartbeat", "service.config.read", "service.logs.write", "service.status.write"]) == {}
  {
    CommonScopes();
    var a, b := ["service.register", "service.heartbeat", "service.config.read"], ["service.logs.write", "service.status.write"];
    PermissionsOfThree("service.register", "service.heartbeat", "service.config.read");
    PermissionsOfTwo("service.logs.write", "service.status.write");
    PermissionsJoin(a, b);
    assert a + b == ["service.register", "service.heartbeat", "service.config.read", "service.logs.write", "service.status.write"];
  }

  lemma RegistrationScopePermissions(serviceType: string, allowRuntimeSecrets: bool, allowRemediation: bool)
    ensures ScopePermissions(RegistrationScopes(serviceType, allowRuntimeSecrets, allowRemediation))
         == ScopePermissions(ScopesByType(serviceType, allowRemediation))
            + (if serviceType == "encoder_recorder" || allowRuntimeSecrets then {SecretsUpdate} else {})
  {
    var base := ["service.register", "service.heartbeat", "service.config.read", "service.logs.write", "service.status.write"];
    var own := ScopesByType(serviceType, allowRemediation);
    var secrets := if serviceType == "encoder_recorder" || allowRuntimeSecrets then ["service.secret.resolve"] else [];
    BaseScopes();
    CommonScopes();
    PermissionsOfOne("service.secret.resolve");
    PermissionsJoin(base, own);
    PermissionsJoin(base + own, secrets);
  }

  lemma RequiredSplits(serviceType: string, scopes: seq<string>)
    ensures RequiredSet(serviceType, scopes, false)
         == {APITokensCreate} + (if HoldsSecrets(serviceType) then {SecretsUpdate} else {}) + ScopePermissions(scopes)
  {
  }

  lemma BotNeeds(allowRuntimeSecrets: bool, allowRemediation: bool)
    ensures RequiredSet("discord_bot", RegistrationScopes("discord_bot", allowRuntimeSecrets, allowRemediation), false)
         == RegistrationPermissions("discord_bot", allowRuntimeSecrets, allowRemediation)
  {
    BotScopes();
    PlainScope("discord_bot");
    RegistrationScopePermissions("discord_bot", allowRuntimeSecrets, allowRemediation);
    RequiredSplits("discord_bot", RegistrationScopes("discord_bot", allowRuntimeSecrets, allowRemediation));
  }

  lemma EncoderNeeds(allowRuntimeSecrets: bool, allowRemediation: bool)
    ensures RequiredSet("encoder_recorder", RegistrationScopes("encoder_recorder", allowRuntimeSecrets, allowRemediation), false)
         == RegistrationPermissions("encoder_recorder", allowRuntimeSecrets, allowRemediation)
  {
    IngestScopes();
    PlainScope("encoder_recorder");
    RegistrationScopePermissions("encoder_recorder", allowRuntimeSecrets, allowRemediation);
    RequiredSplits("encoder_recorder", RegistrationScopes("encoder_recorder", allowRuntimeSecrets, allowRemediation));
  }

  lemma WorkerNeeds(allowRuntimeSecrets: bool, allowRemediation: bool)
    ensures RequiredSet("worker", RegistrationScopes("worker", allowRuntimeSecrets, allowRemediation), false)
         == RegistrationPermissions("worker", allowRuntimeSecrets, allowRemediation)
  {
    IngestScopes();
    PlainScope("worker");
    RegistrationScopePermissions("worker", allowRuntimeSecrets, allowRemediation);
    RequiredSplits("worker", RegistrationScopes("worker", allowRuntimeSecrets, allowRemediation));
  }

  lemma ObservabilityNeeds(allowRuntimeSecrets: bool, allowRemediation: bool)
    ensures RequiredSet("observability", RegistrationScopes("observability", allowRuntimeSecrets, allowRemediation), false)
         == RegistrationPermissions("observability", allowRuntimeSecrets, allowRemediation)
  {
    ObservabilityScopes(allowRemediation);
    PlainScope("observability");
    RegistrationScopePermissions("observability", allowRuntimeSecrets, allowRemediation);
    RequiredSplits("observability", RegistrationScopes("observability", allowRuntimeSecrets, allowRemediation));
  }

  lemma UpdateAgentTable(allowRuntimeSecrets: bool, allowRemediation: bool)
    ensures HoldsSecrets("update_agent") && ScopePermissions(ScopesByType("update_agent", allowRemediation)) == {SystemUpdatesExecute}
    ensures RegistrationPermissions("update_agent", allowRuntimeSecrets, allowRemediation)
         == {APITokensCreate, SecretsUpdate, SystemUpdatesExecute}
  {
    UpdateScopes();
    PlainScope("update_agent");
  }

  lemma UpdateAgentNeeds(allowRuntimeSecrets: bool, allowRemediation: bool)
    ensures RequiredSet("update_agent", RegistrationScopes("update_agent", allowRuntimeSecrets, allowRemediation), false)
         == RegistrationPermissions("update_agent", allowRuntimeSecrets, allowRemediation)
  {
    UpdateAgentTable(allowRuntimeSecrets, allowRemediation);
    RegistrationScopePermissions("update_agent", allowRuntimeSecrets, allowRemediation);
    RequiredSplits("update_agent", RegistrationScopes("update_agent", allowRuntimeSecrets, allowRemediation));
  }

  /** A registration of each service type needs exactly the permissions of that list. */
  lemma RegistrationNeedsExactly(serviceType: string, allowRuntimeSecrets: bool, allowRemediation: bool)
    requires serviceType in {"discord_bot", "encoder_recorder", "worker", "observability", "update_agent"}
    ensures RequiredSet(serviceType, RegistrationScopes(serviceType, allowRuntimeSecrets, allowRemediation), false)
         == RegistrationPermissions(serviceType, allowRuntimeSecrets, allowRemediation)
  {
    if serviceType == "discord_bot" {
      BotNeeds(allowRuntimeSecrets, allowRemediation);
    } else if serviceType == "encoder_recorder" {
      EncoderNeeds(allowRuntimeSecrets, allowRemediation);
    } else if serviceType == "worker" {
      WorkerNeeds(allowRuntimeSecrets, allowRemediation);
    } else if serviceType == "observability" {
      ObservabilityNeeds(allowRuntimeSecrets, allowRemediation);
    } else {
      UpdateAgentNeeds(allowRuntimeSecrets, allowRemediation);
    }
  }

  /** Both gates of a registration, and the right to create tokens, together ask for exactly those permissions. */
  lemma RegistrationAllowedExactlyWhen(actor: Actor, serviceType: string, allowRuntimeSecrets: bool, allowRemediation: bool)
    requires serviceType in {"discord_bot", "encoder_recorder", "worker", "observability", "update_agent"}
    ensures actor(APITokensCreate) && Enforced(actor, serviceType, RegistrationScopes(serviceType, allowRuntimeSecrets, allowRemediation))
       <==> forall p | p in RegistrationPermissions(serviceType, allowRuntimeSecrets, allowRemediation) :: actor(p)
  {
    var scopes := RegistrationScopes(serviceType, allowRuntimeSecrets, allowRemediation);
    RegistrationNeedsExactly(serviceType, allowRuntimeSecrets, allowRemediation);
    NeededIsEnforced(actor, serviceType, scopes);
  }

  lemma NeededIsEnforced(actor: Actor, serviceType: string, scopes: seq<string>)
    ensures actor(APITokensCreate) && Enforced(actor, serviceType, scopes)
       <==> forall p | p in RequiredSet(serviceType, scopes, false) :: actor(p)
  {
    NeedsSplit(actor, serviceType, scopes, false);
    ScopesAcceptedExactlyWhen(actor, scopes);
    assert forall p :: p in RequiredSet(serviceType, scopes, false) <==> Needs(serviceType, scopes, false, p);
  }
}
