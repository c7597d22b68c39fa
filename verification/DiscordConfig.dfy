/**
 Which waiting streams a Discord Bot is told about. Streams that are explicitly
 assigned to the Bot come first; a stream without an assignment is offered only
 when nothing else competes for its voice channel.
 */
module DiscordConfig {
  import opened Text
  import opened Grouping
  import opened Ordering
  import opened Profiles

  datatype Stream = Stream(id: string, status: string, discordConfigID: string, autoStartTrigger: string)

  datatype Profile = Profile(id: string, config: Config)

  datatype Visual = Visual(guildID: string, voiceChannelID: string, textChannelID: string)

  datatype Assignment = Assignment(streamID: string, serviceID: string, serviceType: string, role: string)

  datatype Item = Item(
    streamID: string, role: string, discordConfigID: string, guildID: string,
    voiceChannelID: string, textChannelID: string, autoStartTrigger: string)

  /** The Bot and the stores the handler reads. */
  datatype Env = Env(
    serviceID: string,
    profiles: string -> Lookup<Profile>,
    visuals: string -> Lookup<Visual>)

  function VoiceKey(guildID: string, voiceChannelID: string): string {
    Trim(guildID) + "\U{0}" + Trim(voiceChannelID)
  }

  function KeyOf(x: Item): string {
    VoiceKey(x.guildID, x.voiceChannelID)
  }

  predicate AutoStartable(status: string) {
    Lower(Trim(status)) in {"created", "draft", "scheduled", "ready"}
  }

  // ------------------------------------------------------------- assignments

  predicate IsBotAssignment(a: Assignment, serviceID: string) {
    Trim(a.serviceID) == serviceID && Trim(a.serviceType) == "discord_bot"
  }

  /** The role of the last assignment of a stream to this Bot. */
  function RoleOf(assignments: seq<Assignment>, serviceID: string, streamID: string): Option<string> {
    if assignments == [] then None
    else
      var a := assignments[|assignments| - 1];
      if IsBotAssignment(a, serviceID) && a.streamID == streamID then Some(NormalizeRole(a.role))
      else RoleOf(assignments[..|assignments| - 1], serviceID, streamID)
  }

  method AssignmentRoleByStream(assignments: seq<Assignment>, serviceID: string) returns (roles: map<string, string>)
    ensures forall id :: RoleOf(assignments, serviceID, id) == if id in roles then Some(roles[id]) else None
  {
    roles := map[];
    var n := 0;
    while n < |assignments|
      invariant 0 <= n <= |assignments|
      invariant forall id :: RoleOf(assignments[..n], serviceID, id) == if id in roles then Some(roles[id]) else None
    {
      var a := assignments[n];
      assert assignments[..n + 1][..n] == assignments[..n];
      if Trim(a.serviceID) == serviceID && Trim(a.serviceType) == "discord_bot" {
        roles := roles[a.streamID := NormalizeRole(a.role)];
      }
      n := n + 1;
    }
    assert assignments[..n] == assignments;
  }

  // ------------------------------------------------------------ one stream

  /** What a stream is to the Bot. */
  datatype Class = Skipped | Failed | Explicit(item: Item) | Implicit(item: Item)

  /** The configuration a waiting stream with a matching profile and a voice channel would get. */
  function ItemOf(s: Stream, p: Profile, v: Visual): Item {
    Item(s.id, "primary", p.id,
         Trim(FirstNonEmpty(v.guildID, ConfigString(p.config, "guild_id"))),
         Trim(FirstNonEmpty(v.voiceChannelID, ConfigString(p.config, "voice_channel_id"))),
         Trim(FirstNonEmpty(v.textChannelID, ConfigString(p.config, "text_channel_id"))),
         Trim(s.autoStartTrigger))
  }

  function Classify(e: Env, role: Option<string>, s: Stream): (c: Class)
    ensures c.Explicit? || c.Implicit? ==> c.item.streamID == s.id
  {
    if !AutoStartable(s.status) || Trim(s.discordConfigID) == "" then Skipped
    else
      match e.profiles(s.discordConfigID)
      case Missing => Skipped
      case Broken => Failed
      case Found(p) =>
        if !MatchesService(p.config, e.serviceID) then Skipped
        else
          match e.visuals(s.id)
          case Missing => Skipped
          case Broken => Failed
          case Found(v) =>
            var item := ItemOf(s, p, v);
            if item.guildID == "" || item.voiceChannelID == "" then Skipped
            else if role.Some? then (if NormalizeRole(role.value) == "primary" then Explicit(item) else Skipped)
            else if EqualFold(item.autoStartTrigger, "discord_voice_join") then Implicit(item)
            else Skipped
  }

  function ClassOf(e: Env, assignments: seq<Assignment>, s: Stream): (c: Class)
    ensures c.Explicit? || c.Implicit? ==> c.item.streamID == s.id
  {
    Classify(e, RoleOf(assignments, e.serviceID, s.id), s)
  }

  function Classes(e: Env, assignments: seq<Assignment>, streams: seq<Stream>): (r: seq<Class>)
    ensures |r| == |streams|
    ensures forall i | 0 <= i < |r| :: r[i] == ClassOf(e, assignments, streams[i])
  {
    seq(|streams|, i requires 0 <= i < |streams| => ClassOf(e, assignments, streams[i]))
  }

  // --------------------------------------------------------- the specification

  ghost function KeysOf(explicit: multiset<Item>, key: Item -> string): set<string> {
    set y | y in explicit :: key(y)
  }

  /** All explicit items, and exactly the implicit ones that stand alone on their voice channel. */
  ghost predicate Selects(items: seq<Item>, explicit: multiset<Item>, implicit: multiset<Item>) {
    forall x :: multiset(items)[x] == explicit[x] + (if Lone(implicit, KeyOf, KeysOf(explicit, KeyOf), x) then 1 else 0)
  }

  function ExplicitItems(cs: seq<Class>): seq<Item> {
    if cs == [] then []
    else
      var c := cs[|cs| - 1];
      ExplicitItems(cs[..|cs| - 1]) + (if c.Explicit? then [c.item] else [])
  }

  function ImplicitItems(cs: seq<Class>): seq<Item> {
    if cs == [] then []
    else
      var c := cs[|cs| - 1];
      ImplicitItems(cs[..|cs| - 1]) + (if c.Implicit? then [c.item] else [])
  }

  predicate ByID(x: Item, y: Item) {
    Leq(x.streamID, y.streamID)
  }

  predicate ByKeyThenID(x: Item, y: Item) {
    if KeyOf(x) == KeyOf(y) then Leq(x.streamID, y.streamID) else Leq(KeyOf(x), KeyOf(y))
  }

  lemma ByIDIsOrder()
    ensures TotalPreorder(ByID)
  {
    forall x, y
      ensures ByID(x, y) || ByID(y, x)
    {
      LeqTotal(x.streamID, y.streamID);
    }
    forall x, y, z | ByID(x, y) && ByID(y, z)
      ensures ByID(x, z)
    {
      LeqTransitive(x.streamID, y.streamID, z.streamID);
    }
  }

  lemma ByKeyIsOrder()
    ensures TotalPreorder(ByKeyThenID)
  {
    forall x, y
      ensures ByKeyThenID(x, y) || ByKeyThenID(y, x)
    {
      LeqTotal(x.streamID, y.streamID);
      LeqTotal(KeyOf(x), KeyOf(y));
    }
    forall x, y, z | ByKeyThenID(x, y) && ByKeyThenID(y, z)
      ensures ByKeyThenID(x, z)
    {
      ByKeyIsTransitive(x, y, z);
    }
  }

  lemma ByKeyIsTransitive(x: Item, y: Item, z: Item)
    requires ByKeyThenID(x, y) && ByKeyThenID(y, z)
    ensures ByKeyThenID(x, z)
  {
    if KeyOf(x) == KeyOf(y) == KeyOf(z) {
      LeqTransitive(x.streamID, y.streamID, z.streamID);
    } else if KeyOf(x) == KeyOf(z) {
      LeqAntisymmetric(KeyOf(x), KeyOf(y));
    } else if KeyOf(x) != KeyOf(y) && KeyOf(y) != KeyOf(z) {
      LeqTransitive(KeyOf(x), KeyOf(y), KeyOf(z));
    }
  }

  lemma SortedKeys(c: seq<Item>, i: nat, j: nat)
    requires Sorted(c, ByKeyThenID) && i < j < |c|
    ensures Leq(KeyOf(c[i]), KeyOf(c[j]))
  {
    assert ByKeyThenID(c[i], c[j]);
    LeqReflexive(KeyOf(c[i]));
  }

  /** Sorting by key puts equal keys next to each other. */
  lemma SortedIsGrouped(c: seq<Item>)
    requires Sorted(c, ByKeyThenID)
    ensures Grouped(c, KeyOf)
  {
    forall i, j, k | 0 <= i < j < k < |c| && KeyOf(c[i]) == KeyOf(c[k])
      ensures KeyOf(c[j]) == KeyOf(c[i])
    {
      SortedKeys(c, i, j);
      SortedKeys(c, j, k);
      LeqAntisymmetric(KeyOf(c[i]), KeyOf(c[j]));
    }
  }

  /** Explicit items and picked candidates together are the selection. */
  lemma PickedIsSelected(explicit: seq<Item>, c: seq<Item>, taken: set<string>, items: seq<Item>)
    requires taken == KeysOf(multiset(explicit), KeyOf)
    requires multiset(items) == multiset(explicit) + multiset(Lones(c, KeyOf, taken, |c|))
    ensures Selects(items, multiset(explicit), multiset(c))
  {
    forall x
      ensures multiset(items)[x] == multiset(explicit)[x] + (if Lone(multiset(c), KeyOf, taken, x) then 1 else 0)
    {
      LonesAreLone(c, KeyOf, taken, x);
    }
  }

  /** What the payload must be for a list of classes. */
  ghost predicate Payload(items: seq<Item>, cs: seq<Class>) {
    Sorted(items, ByID) && Selects(items, multiset(ExplicitItems(cs)), multiset(ImplicitItems(cs)))
  }

  /** Sort, group, select, sort. */
  method SelectItems(explicit: seq<Item>, implicit: seq<Item>, taken: set<string>) returns (items: seq<Item>)
    requires taken == KeysOf(multiset(explicit), KeyOf)
    ensures Sorted(items, ByID) && Selects(items, multiset(explicit), multiset(implicit))
  {
    ByIDIsOrder();
    ByKeyIsOrder();
    var explicitItems := SortBy(explicit, ByID);
    var candidates := SortBy(implicit, ByKeyThenID);
    SortedIsGrouped(candidates);
    var picked := PickLone(candidates, KeyOf, taken);
    items := SortBy(explicitItems + picked, ByID);
    PickedIsSelected(explicit, candidates, taken, items);
  }

  lemma KeysGrow(explicit: seq<Item>, item: Item, key: Item -> string)
    ensures KeysOf(multiset(explicit + [item]), key) == KeysOf(multiset(explicit), key) + {key(item)}
  {
    var more := multiset(explicit + [item]);
    assert forall y :: y in more <==> y in multiset(explicit) || y == item;
    assert item in more;
  }

  lemma ItemsGrow(cs: seq<Class>, n: nat)
    requires n < |cs|
    ensures ExplicitItems(cs[..n + 1]) == ExplicitItems(cs[..n]) + (if cs[n].Explicit? then [cs[n].item] else [])
    ensures ImplicitItems(cs[..n + 1]) == ImplicitItems(cs[..n]) + (if cs[n].Implicit? then [cs[n].item] else [])
  {
    assert cs[..n + 1][..n] == cs[..n];
  }

  /** The first n classes have been collected. */
  ghost predicate Collected(
    cs: seq<Class>, n: nat, explicit: seq<Item>, implicit: seq<Item>, taken: set<string>, key: Item -> string)
    requires n <= |cs|
  {
    && explicit == ExplicitItems(cs[..n])
    && implicit == ImplicitItems(cs[..n])
    && taken == KeysOf(multiset(explicit), key)
  }

  lemma CollectedExplicit(
    cs: seq<Class>, n: nat, explicit: seq<Item>, implicit: seq<Item>, taken: set<string>, key: Item -> string)
    requires n < |cs| && cs[n].Explicit? && Collected(cs, n, explicit, implicit, taken, key)
    ensures Collected(cs, n + 1, explicit + [cs[n].item], implicit, taken + {key(cs[n].item)}, key)
  {
    ItemsGrow(cs, n);
    KeysGrow(explicit, cs[n].item, key);
  }

  lemma CollectedOther(
    cs: seq<Class>, n: nat, explicit: seq<Item>, implicit: seq<Item>, taken: set<string>, key: Item -> string)
    requires n < |cs| && !cs[n].Explicit? && Collected(cs, n, explicit, implicit, taken, key)
    ensures Collected(cs, n + 1, explicit, implicit + (if cs[n].Implicit? then [cs[n].item] else []), taken, key)
  {
    ItemsGrow(cs, n);
  }

  lemma CollectedAll(
    cs: seq<Class>, explicit: seq<Item>, implicit: seq<Item>, taken: set<string>, key: Item -> string)
    requires Collected(cs, |cs|, explicit, implicit, taken, key)
    ensures explicit == ExplicitItems(cs) && implicit == ImplicitItems(cs)
    ensures taken == KeysOf(multiset(explicit), key)
  {
    assert cs[..|cs|] == cs;
  }

  lemma CollectedNone(cs: seq<Class>, key: Item -> string)
    ensures Collected(cs, 0, [], [], {}, key)
  {
  }

  /** The loop over the streams, for any way of classifying one. */
  method Collect(streams: seq<Stream>, classOf: Stream -> Class, key: Item -> string)
    returns (ok: bool, explicit: seq<Item>, implicit: seq<Item>, taken: set<string>)
    ensures ok <==> forall i | 0 <= i < |streams| :: !classOf(streams[i]).Failed?
    ensures ok ==> explicit == ExplicitItems(Mapped(streams, classOf)) && implicit == ImplicitItems(Mapped(streams, classOf))
    ensures ok ==> taken == KeysOf(multiset(explicit), key)
  {
    ok, explicit, implicit, taken := true, [], [], {};
    ghost var cs := Mapped(streams, classOf);
    CollectedNone(cs, key);
    var n := 0;
    while n < |streams|
      invariant 0 <= n <= |streams|
      invariant forall i | 0 <= i < n :: !classOf(streams[i]).Failed?
      invariant Collected(cs, n, explicit, implicit, taken, key)
    {
      var kind := classOf(streams[n]);
      if kind.Failed? {
        ok := false;
        return;
      }
      if kind.Explicit? {
        CollectedExplicit(cs, n, explicit, implicit, taken, key);
        taken := taken + {key(kind.item)};
        explicit := explicit + [kind.item];
      } else {
        CollectedOther(cs, n, explicit, implicit, taken, key);
        implicit := implicit + (if kind.Implicit? then [kind.item] else []);
      }
      n := n + 1;
    }
    CollectedAll(cs, explicit, implicit, taken, key);
  }

  /** The handler: list the streams, which may fail, classify every one, then select. */
  method RuntimeDiscordStreamConfigs(e: Env, serviceType: string, assignments: seq<Assignment>, listed: Option<seq<Stream>>)
    returns (r: Option<seq<Item>>)
    ensures serviceType != "discord_bot" ==> r == Some([])
    ensures serviceType == "discord_bot" ==>
              (r.None? <==> listed.None? || exists i | 0 <= i < |listed.value| :: ClassOf(e, assignments, listed.value[i]).Failed?)
    ensures serviceType == "discord_bot" && r.Some? ==> Payload(r.value, Classes(e, assignments, listed.value))
  {
    if serviceType != "discord_bot" {
      return Some([]);
    }
    if listed.None? {
      return None;
    }
    var streams := listed.value;
    var roles := AssignmentRoleByStream(assignments, e.serviceID);
    var classOf := (s: Stream) => Classify(e, if s.id in roles then Some(roles[s.id]) else None, s);
    assert forall s :: classOf(s) == ClassOf(e, assignments, s);
    assert Mapped(streams, classOf) == Classes(e, assignments, streams);
    var ok, explicit, implicit, taken := Collect(streams, classOf, KeyOf);
    if !ok {
      return None;
    }
    var items := SelectItems(explicit, implicit, taken);
    return Some(items);
  }

  // ------------------------------------------------ the order does not matter

  lemma LastCounts<T>(s: seq<T>, x: T)
    requires s != []
    ensures multiset(s)[x] == multiset(s[..|s| - 1])[x] + (if s[|s| - 1] == x then 1 else 0)
  {
    assert s == s[..|s| - 1] + [s[|s| - 1]];
  }

  lemma AppendCounts<T>(s: seq<T>, y: T, x: T)
    ensures multiset(s + [y])[x] == multiset(s)[x] + (if y == x then 1 else 0)
  {
  }

  lemma {:induction false} ExplicitCounts(cs: seq<Class>, x: Item)
    ensures multiset(ExplicitItems(cs))[x] == multiset(cs)[Explicit(x)]
  {
    if cs != [] {
      var n := |cs| - 1;
      ExplicitCounts(cs[..n], x);
      LastCounts(cs, Explicit(x));
      if cs[n].Explicit? {
        AppendCounts(ExplicitItems(cs[..n]), cs[n].item, x);
      } else {
        assert ExplicitItems(cs[..n]) + [] == ExplicitItems(cs[..n]);
      }
    }
  }

  lemma {:induction false} ImplicitCounts(cs: seq<Class>, x: Item)
    ensures multiset(ImplicitItems(cs))[x] == multiset(cs)[Implicit(x)]
  {
    if cs != [] {
      var n := |cs| - 1;
      ImplicitCounts(cs[..n], x);
      LastCounts(cs, Implicit(x));
      if cs[n].Implicit? {
        AppendCounts(ImplicitItems(cs[..n]), cs[n].item, x);
      } else {
        assert ImplicitItems(cs[..n]) + [] == ImplicitItems(cs[..n]);
      }
    }
  }

  lemma ItemCounts(cs: seq<Class>, x: Item)
    ensures multiset(ExplicitItems(cs))[x] == multiset(cs)[Explicit(x)]
    ensures multiset(ImplicitItems(cs))[x] == multiset(cs)[Implicit(x)]
  {
    ExplicitCounts(cs, x);
    ImplicitCounts(cs, x);
  }

  lemma IndexOf<T>(s: seq<T>, x: T) returns (i: nat)
    requires multiset(s)[x] > 0
    ensures i < |s| && s[i] == x
  {
    assert x in multiset(s);
    i :| 0 <= i < |s| && s[i] == x;
  }

  /** Every item of a payload has its class. */
  lemma ItemHasClass(items: seq<Item>, cs: seq<Class>, x: Item)
    requires Payload(items, cs) && x in items
    ensures multiset(cs)[Explicit(x)] > 0 || multiset(cs)[Implicit(x)] > 0
  {
    ItemCounts(cs, x);
    assert x in multiset(items);
  }

  /** An item of the payload comes from a stream of the list. */
  lemma ItemFromStream(e: Env, assignments: seq<Assignment>, streams: seq<Stream>, items: seq<Item>, x: Item) returns (i: nat)
    requires Payload(items, Classes(e, assignments, streams)) && x in items
    ensures i < |streams| && streams[i].id == x.streamID
    ensures var c := ClassOf(e, assignments, streams[i]); c == Explicit(x) || c == Implicit(x)
  {
    var cs := Classes(e, assignments, streams);
    ItemHasClass(items, cs, x);
    if multiset(cs)[Explicit(x)] > 0 {
      i := IndexOf(cs, Explicit(x));
    } else {
      i := IndexOf(cs, Implicit(x));
    }
  }

  ghost predicate DistinctIDs(streams: seq<Stream>) {
    forall i, j | 0 <= i < |streams| && 0 <= j < |streams| && streams[i].id == streams[j].id :: i == j
  }

  lemma PayloadSeparates(e: Env, assignments: seq<Assignment>, streams: seq<Stream>, items: seq<Item>)
    requires DistinctIDs(streams) && Payload(items, Classes(e, assignments, streams))
    ensures Separates(items, ByID)
  {
    forall x, y | x in items && y in items && ByID(x, y) && ByID(y, x)
      ensures x == y
    {
      LeqAntisymmetric(x.streamID, y.streamID);
      var i := ItemFromStream(e, assignments, streams, items, x);
      var j := ItemFromStream(e, assignments, streams, items, y);
    }
  }

  /** Reordering the streams reorders their classes. */
  lemma ClassesPermute(e: Env, assignments: seq<Assignment>, a: seq<Stream>, b: seq<Stream>)
    requires multiset(a) == multiset(b)
    ensures multiset(Classes(e, assignments, a)) == multiset(Classes(e, assignments, b))
  {
    var f := (s: Stream) => ClassOf(e, assignments, s);
    MappedPermutes(a, b, f);
    assert Classes(e, assignments, a) == Mapped(a, f);
    assert Classes(e, assignments, b) == Mapped(b, f);
  }

  lemma PayloadsPermute(x: seq<Item>, y: seq<Item>, cs: seq<Class>, ds: seq<Class>)
    requires Payload(x, cs) && Payload(y, ds) && multiset(cs) == multiset(ds)
    ensures multiset(x) == multiset(y)
  {
    forall i
      ensures multiset(ExplicitItems(cs))[i] == multiset(ExplicitItems(ds))[i]
      ensures multiset(ImplicitItems(cs))[i] == multiset(ImplicitItems(ds))[i]
    {
      ItemCounts(cs, i);
      ItemCounts(ds, i);
    }
    assert multiset(ExplicitItems(cs)) == multiset(ExplicitItems(ds));
    assert multiset(ImplicitItems(cs)) == multiset(ImplicitItems(ds));
    SelectionIsUnique(x, y, multiset(ExplicitItems(cs)), multiset(ImplicitItems(cs)));
  }

  lemma SelectionIsUnique(x: seq<Item>, y: seq<Item>, explicit: multiset<Item>, implicit: multiset<Item>)
    requires Selects(x, explicit, implicit) && Selects(y, explicit, implicit)
    ensures multiset(x) == multiset(y)
  {
    assert forall i :: multiset(x)[i] == multiset(y)[i];
  }

  /** For distinct stream ids the payload does not depend on the order in which the store lists the streams. */
  lemma PayloadIgnoresOrder(
    e: Env, assignments: seq<Assignment>, a: seq<Stream>, b: seq<Stream>, x: seq<Item>, y: seq<Item>)
    requires multiset(a) == multiset(b) && DistinctIDs(a)
    requires Payload(x, Classes(e, assignments, a)) && Payload(y, Classes(e, assignments, b))
    ensures x == y
  {
    ClassesPermute(e, assignments, a, b);
    PayloadsPermute(x, y, Classes(e, assignments, a), Classes(e, assignments, b));
    PayloadSeparates(e, assignments, a, x);
    SortedIsUnique(x, y, ByID);
  }

  /** No two streams of the payload compete for a voice channel unless both are explicit. */
  lemma ImplicitNeverCompetes(items: seq<Item>, cs: seq<Class>, x: Item, y: Item)
    requires Payload(items, cs) && x in items && y in items && x != y && KeyOf(x) == KeyOf(y)
    ensures Explicit(x) in cs && Explicit(y) in cs
  {
    ItemCounts(cs, x);
    ItemCounts(cs, y);
    assert x in multiset(items) && y in multiset(items);
    var explicit, implicit := multiset(ExplicitItems(cs)), multiset(ImplicitItems(cs));
    assert y in explicit ==> KeyOf(y) in KeysOf(explicit, KeyOf);
    assert x in explicit ==> KeyOf(x) in KeysOf(explicit, KeyOf);
    assert Explicit(x) in multiset(cs) && Explicit(y) in multiset(cs);
  }

  // -------------------------------------------------- what an item says of its stream

  ghost predicate AssignsTo(a: Assignment, serviceID: string, streamID: string) {
    Trim(a.serviceID) == serviceID && Trim(a.serviceType) == "discord_bot" && a.streamID == streamID
  }

  ghost predicate IsLast<T>(s: seq<T>, p: T -> bool, i: nat) {
    i < |s| && p(s[i]) && forall j | i < j < |s| :: !p(s[j])
  }

  ghost predicate HasNone<T>(s: seq<T>, p: T -> bool) {
    forall i | 0 <= i < |s| :: !p(s[i])
  }

  /** The last element with the one property has the other too. */
  ghost predicate LastHas<T>(s: seq<T>, p: T -> bool, q: T -> bool) {
    exists i: nat :: IsLast(s, p, i) && q(s[i])
  }

  ghost function AssigningTo(serviceID: string, streamID: string): Assignment -> bool {
    (a: Assignment) => AssignsTo(a, serviceID, streamID)
  }

  ghost predicate NotStandby(a: Assignment) {
    Trim(Lower(a.role)) != "standby"
  }

  /** The Bot has no assignment to the stream. */
  ghost predicate Unassigned(assignments: seq<Assignment>, serviceID: string, streamID: string) {
    HasNone(assignments, AssigningTo(serviceID, streamID))
  }

  /** The Bot's last assignment to the stream makes it the primary: it says anything but standby. */
  ghost predicate AssignedPrimary(assignments: seq<Assignment>, serviceID: string, streamID: string) {
    LastHas(assignments, AssigningTo(serviceID, streamID), NotStandby)
  }

  lemma {:induction false} RoleIsOfLast(assignments: seq<Assignment>, serviceID: string, streamID: string)
    ensures RoleOf(assignments, serviceID, streamID).None? <==> Unassigned(assignments, serviceID, streamID)
    ensures (RoleOf(assignments, serviceID, streamID).Some? && NormalizeRole(RoleOf(assignments, serviceID, streamID).value) == "primary")
       <==> AssignedPrimary(assignments, serviceID, streamID)
  {
    if assignments != [] {
      var n := |assignments| - 1;
      if AssignsTo(assignments[n], serviceID, streamID) {
        LastDecides(assignments, AssigningTo(serviceID, streamID), NotStandby);
        RoleTwice(assignments[n].role);
      } else {
        RoleIsOfLast(assignments[..n], serviceID, streamID);
        LastIsIrrelevant(assignments, AssigningTo(serviceID, streamID), NotStandby);
      }
    }
  }

  /** Normalising a role again changes nothing. */
  lemma RoleTwice(role: string)
    ensures NormalizeRole(NormalizeRole(role)) == NormalizeRole(role)
    ensures NormalizeRole(role) == "primary" <==> Trim(Lower(role)) != "standby"
  {
    var a, b := "standby", "primary";
    assert Lower(a) == a && Lower(b) == b;
    TrimOfTrimmed(a);
    TrimOfTrimmed(b);
    assert a[0] != b[0];
  }

  lemma LastDecides<T>(s: seq<T>, p: T -> bool, q: T -> bool)
    requires s != [] && p(s[|s| - 1])
    ensures !HasNone(s, p) && (LastHas(s, p, q) <==> q(s[|s| - 1]))
  {
    assert IsLast(s, p, |s| - 1);
    assert forall i: nat :: IsLast(s, p, i) ==> i == |s| - 1;
  }

  lemma LastIsIrrelevant<T>(s: seq<T>, p: T -> bool, q: T -> bool)
    requires s != [] && !p(s[|s| - 1])
    ensures HasNone(s, p) <==> HasNone(s[..|s| - 1], p)
    ensures LastHas(s, p, q) <==> LastHas(s[..|s| - 1], p, q)
  {
    var before := s[..|s| - 1];
    assert forall i | 0 <= i < |before| :: before[i] == s[i];
    assert forall i | 0 <= i < |s| && p(s[i]) :: i < |before| && p(before[i]);
    assert forall i: nat :: IsLast(s, p, i) <==> IsLast(before, p, i);
  }

  /** The stream's own value wins over the profile's, both without outer spaces. */
  function OwnFirst(own: string, profile: string): string {
    if Trim(own) != "" then Trim(own) else Trim(profile)
  }

  /** Not started yet, and with a Discord profile. */
  ghost predicate IsWaiting(s: Stream) {
    && (Lower(Trim(s.status)) == "created" || Lower(Trim(s.status)) == "draft"
        || Lower(Trim(s.status)) == "scheduled" || Lower(Trim(s.status)) == "ready")
    && Trim(s.discordConfigID) != ""
  }

  /** The item a stream would be sent with: waiting, bound to the Bot through its profile, and with a voice channel to join. */
  ghost predicate Describes(e: Env, s: Stream, x: Item) {
    && IsWaiting(s)
    && e.profiles(s.discordConfigID).Found? && e.visuals(s.id).Found?
    && var p, v := e.profiles(s.discordConfigID).value, e.visuals(s.id).value;
       && MatchesService(p.config, e.serviceID)
       && x == Item(s.id, "primary", p.id, x.guildID, x.voiceChannelID, x.textChannelID, Trim(s.autoStartTrigger))
       && x.guildID == OwnFirst(v.guildID, ConfigString(p.config, "guild_id")) != ""
       && x.voiceChannelID == OwnFirst(v.voiceChannelID, ConfigString(p.config, "voice_channel_id")) != ""
       && x.textChannelID == OwnFirst(v.textChannelID, ConfigString(p.config, "text_channel_id"))
  }

  lemma OwnFirstIs(own: string, profile: string)
    ensures Trim(FirstNonEmpty(own, profile)) == OwnFirst(own, profile)
  {
    TrimOfTrimmed("");
  }

  lemma ItemDescribes(s: Stream, p: Profile, v: Visual)
    ensures var x := ItemOf(s, p, v);
            && x.guildID == OwnFirst(v.guildID, ConfigString(p.config, "guild_id"))
            && x.voiceChannelID == OwnFirst(v.voiceChannelID, ConfigString(p.config, "voice_channel_id"))
            && x.textChannelID == OwnFirst(v.textChannelID, ConfigString(p.config, "text_channel_id"))
  {
    OwnFirstIs(v.guildID, ConfigString(p.config, "guild_id"));
    OwnFirstIs(v.voiceChannelID, ConfigString(p.config, "voice_channel_id"));
    OwnFirstIs(v.textChannelID, ConfigString(p.config, "text_channel_id"));
  }

  lemma ClassifyExactlyWhen(e: Env, role: Option<string>, s: Stream, x: Item)
    ensures Classify(e, role, s) == Explicit(x) <==> Describes(e, s, x) && role.Some? && NormalizeRole(role.value) == "primary"
    ensures Classify(e, role, s) == Implicit(x) <==> Describes(e, s, x) && role.None? && EqualFold(Trim(s.autoStartTrigger), "discord_voice_join")
  {
    if e.profiles(s.discordConfigID).Found? && e.visuals(s.id).Found? {
      ItemDescribes(s, e.profiles(s.discordConfigID).value, e.visuals(s.id).value);
    }
  }

  /** A stream is explicit exactly when its last assignment makes the Bot its primary, and a candidate when it has none and joins by voice. */
  lemma ClassExactlyWhen(e: Env, assignments: seq<Assignment>, s: Stream, x: Item)
    ensures ClassOf(e, assignments, s) == Explicit(x) <==> Describes(e, s, x) && AssignedPrimary(assignments, e.serviceID, s.id)
    ensures ClassOf(e, assignments, s) == Implicit(x) <==>
            Describes(e, s, x) && Unassigned(assignments, e.serviceID, s.id) && EqualFold(Trim(s.autoStartTrigger), "discord_voice_join")
  {
    RoleIsOfLast(assignments, e.serviceID, s.id);
    ClassifyExactlyWhen(e, RoleOf(assignments, e.serviceID, s.id), s, x);
  }

  /** A stream breaks the list exactly when it is waiting and a lookup that it needs breaks; its assignments play no part. */
  lemma FailsExactlyWhen(e: Env, assignments: seq<Assignment>, s: Stream)
    ensures ClassOf(e, assignments, s).Failed? <==>
            && IsWaiting(s)
            && var p := e.profiles(s.discordConfigID);
               p.Broken? || (p.Found? && MatchesService(p.value.config, e.serviceID) && e.visuals(s.id).Broken?)
  {
  }

  /**
   Every stream of the payload is a waiting one that its item describes, and either
   its last assignment makes the Bot its primary or it has none and joins by voice.
   A stream whose last assignment to the Bot is standby is never sent.
   */
  lemma PayloadItemsQualify(e: Env, assignments: seq<Assignment>, streams: seq<Stream>, items: seq<Item>, x: Item) returns (i: nat)
    requires Payload(items, Classes(e, assignments, streams)) && x in items
    ensures i < |streams| && Describes(e, streams[i], x)
    ensures AssignedPrimary(assignments, e.serviceID, streams[i].id)
            || (Unassigned(assignments, e.serviceID, streams[i].id) && EqualFold(Trim(streams[i].autoStartTrigger), "discord_voice_join"))
  {
    i := ItemFromStream(e, assignments, streams, items, x);
    ClassExactlyWhen(e, assignments, streams[i], x);
  }

  /** And every described stream that the Bot is assigned to as primary is sent. */
  lemma AssignedStreamsAreSent(e: Env, assignments: seq<Assignment>, streams: seq<Stream>, items: seq<Item>, i: nat, x: Item)
    requires Payload(items, Classes(e, assignments, streams)) && i < |streams|
    requires Describes(e, streams[i], x) && AssignedPrimary(assignments, e.serviceID, streams[i].id)
    ensures x in items
  {
    ClassExactlyWhen(e, assignments, streams[i], x);
    var cs := Classes(e, assignments, streams);
    assert cs[i] == Explicit(x);
    assert Explicit(x) in multiset(cs);
    ItemCounts(cs, x);
    assert x in multiset(items);
  }

  // ------------------------------------------------------------ keys and order

  /** Two items have one voice key exactly when they name the same guild and channel. */
  lemma VoiceKeyTellsApart(x: Item, y: Item)
    requires '\0' !in Trim(x.guildID) && '\0' !in Trim(y.guildID)
    ensures KeyOf(x) == KeyOf(y) <==> Trim(x.guildID) == Trim(y.guildID) && Trim(x.voiceChannelID) == Trim(y.voiceChannelID)
  {
    if KeyOf(x) == KeyOf(y) {
      SplitAtNul(Trim(x.guildID), Trim(x.voiceChannelID), Trim(y.guildID), Trim(y.voiceChannelID));
    }
  }

  lemma SplitAtNul(a: string, x: string, b: string, y: string)
    requires '\0' !in a && '\0' !in b && a + "\U{0}" + x == b + "\U{0}" + y
    ensures a == b && x == y
  {
    var s := a + "\U{0}" + x;
    assert s[|a|] == '\0' && (b + "\U{0}" + y)[|b|] == '\0';
    assert forall i | 0 <= i < |a| :: s[i] == a[i] && a[i] in a;
    assert forall i | 0 <= i < |b| :: s[i] == b[i] && b[i] in b;
    assert a == s[..|a|] == b;
    assert x == s[|a| + 1..] == y;
  }

  /** The payload is in ascending order of stream ids. */
  lemma PayloadAscends(items: seq<Item>, cs: seq<Class>, i: nat, j: nat)
    requires Payload(items, cs) && i < j < |items|
    ensures Leq(items[i].streamID, items[j].streamID)
  {
    assert ByID(items[i], items[j]);
  }
}
