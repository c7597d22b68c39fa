/**
 The durable rows of the Discord/YouTube live-notification outbox and the
 store's conditional updates of them. Lease tokens stand for their hashes.
 */
module OutboxStore {
  import opened Text

  datatype State =
    | AwaitingYouTubeLive
    | DispatchPending
    | Dispatching      // claimed, the Bot has not been called
    | BotDispatching   // the fence before the Bot call is durable
    | Delivered
    | DeliveryUnknown
    | Suppressed

  datatype Lease = Lease(token: string, expires: int)

  datatype Row = Row(
    id: string, streamID: string, eventID: string, serviceID: string, mode: string,
    lifecycle: string, state: State, attempts: nat, dispatchAttempts: nat,
    nextAttempt: Option<int>, lease: Option<Lease>, lastError: string,
    messageID: string, deliveredAt: Option<int>, created: int)

  predicate IsCodeChar(c: char) {
    'a' <= c <= 'z' || '0' <= c <= '9' || c == '_' || c == '-'
  }

  /** A lower-case code, or the empty text when the value is not one. */
  function NormalizeCode(value: string): string {
    var code := Lower(Trim(value));
    if |code| > 128 || exists i | 0 <= i < |code| :: !IsCodeChar(code[i]) then "" else code
  }

  predicate IsOpaque(value: string) {
    value != "" && forall i | 0 <= i < |value| :: value[i] >= ' ' && value[i] != '\U{7F}'
  }

  // ------------------------------------------------------- single-row updates

  predicate Retryable(s: State) {
    s == AwaitingYouTubeLive || s == DispatchPending
  }

  /** Claimable: waiting and due, or claimed before the fence under a lease that has run out. */
  predicate Due(r: Row, now: int) {
    || (Retryable(r.state) && r.nextAttempt.Some? && r.nextAttempt.value <= now)
    || (r.state == Dispatching && r.lease.Some? && r.lease.value.expires <= now)
  }

  function Claim(r: Row, token: string, expires: int): Row {
    r.(state := Dispatching, attempts := r.attempts + 1, lease := Some(Lease(token, expires)))
  }

  /** Past the fence under a lease that has run out. */
  predicate FenceDue(r: Row, now: int) {
    r.state == BotDispatching && r.lease.Some? && r.lease.value.expires <= now
  }

  const LEASE_EXPIRED := "discord_dispatch_lease_expired_unknown"

  function Fence(r: Row): Row {
    r.(state := DeliveryUnknown, nextAttempt := None, lease := None, lastError := LEASE_EXPIRED)
  }

  predicate Holds(r: Row, token: string, now: int) {
    r.lease.Some? && r.lease.value.token == token && r.lease.value.expires > now
  }

  predicate CanBegin(r: Row, token: string, now: int) {
    r.state == Dispatching && Holds(r, token, now)
  }

  function Begin(r: Row): Row {
    r.(state := BotDispatching, dispatchAttempts := r.dispatchAttempts + 1)
  }

  /** What a dispatcher asks the store to record for its claim. */
  datatype Save =
    | Retry(state: State, lifecycle: string, code: string, nextAttempt: int)
    | MarkDelivered(lifecycle: string, messageID: string)
    | MarkUnknown(lifecycle: string, code: string)
    | MarkSuppressed(lifecycle: string, code: string)

  predicate SaveValid(save: Save, token: string) {
    Trim(token) != "" &&
    match save
    case Retry(state, _, code, _) => Retryable(state) && NormalizeCode(code) != ""
    case MarkDelivered(lifecycle, messageID) => IsOpaque(Trim(messageID)) && NormalizeCode(lifecycle) != ""
    case MarkUnknown(_, code) => NormalizeCode(code) != ""
    case MarkSuppressed(_, code) => NormalizeCode(code) != ""
  }

  predicate CanSave(r: Row, token: string, save: Save, now: int) {
    && SaveValid(save, token)
    && Holds(r, token, now)
    && (r.state == BotDispatching || (r.state == Dispatching && (save.Retry? || save.MarkSuppressed?)))
  }

  function SaveState(save: Save): State {
    match save
    case Retry(state, _, _, _) => state
    case MarkDelivered(_, _) => Delivered
    case MarkUnknown(_, _) => DeliveryUnknown
    case MarkSuppressed(_, _) => Suppressed
  }

  function SaveCode(save: Save): string {
    if save.MarkDelivered? then "" else NormalizeCode(save.code)
  }

  function Apply(r: Row, save: Save, now: int): Row {
    r.(state := SaveState(save),
       lifecycle := NormalizeCode(save.lifecycle),
       lastError := SaveCode(save),
       nextAttempt := if save.Retry? then Some(save.nextAttempt) else None,
       lease := None,
       messageID := if save.MarkDelivered? then Trim(save.messageID) else "",
       deliveredAt := if save.MarkDelivered? then Some(now) else None)
  }

  // ----------------------------------------------------------- what a row may hold

  const CODE_LETTERS: string := "abcdefghijklmnopqrstuvwxyz" + "0123456789_-"

  /** A code: one to 128 of these letters. */
  predicate IsCode(text: string) {
    0 < |text| <= 128 && forall i | 0 <= i < |text| :: text[i] in CODE_LETTERS
  }

  lemma CodeLetter(c: char)
    ensures IsCodeChar(c) <==> c in CODE_LETTERS
  {
    var letters, others := "abcdefghijklmnopqrstuvwxyz", "0123456789_-";
    assert forall i | 0 <= i < 26 :: letters[i] == 'a' + i as char;
    assert forall i | 0 <= i < 10 :: others[i] == '0' + i as char;
    assert others[10] == '_' && others[11] == '-';
    if 'a' <= c <= 'z' {
      assert letters[c as int - 'a' as int] == c;
    } else if '0' <= c <= '9' {
      assert others[c as int - '0' as int] == c;
    }
  }

  /** A value is kept as a code, lower-cased and without outer spaces, exactly when that is one; else nothing is kept. */
  lemma CodeExactlyWhen(value: string)
    ensures NormalizeCode(value) == if IsCode(Lower(Trim(value))) then Lower(Trim(value)) else ""
  {
    var code := Lower(Trim(value));
    forall i | 0 <= i < |code|
      ensures IsCodeChar(code[i]) <==> code[i] in CODE_LETTERS
    {
      CodeLetter(code[i]);
    }
  }

  /** A message id is any text without control characters. */
  lemma OpaqueExactlyWhen(value: string)
    ensures IsOpaque(value) <==> |value| > 0 && forall c | c in value :: 31 < c as int && c as int != 127
  {
    if IsOpaque(value) {
      forall c | c in value
        ensures 31 < c as int && c as int != 127
      {
        var i :| 0 <= i < |value| && value[i] == c;
        assert c >= ' ' && c != '\U{7F}';
      }
    } else if value != "" {
      var i :| 0 <= i < |value| && !(value[i] >= ' ' && value[i] != '\U{7F}');
      assert value[i] in value;
    }
  }

  /** At every moment a claimed row is either its worker's, or due for the next one, or to be fenced. */
  lemma HeldExactlyUntilDue(r: Row, now: int)
    requires (r.state == Dispatching || r.state == BotDispatching) && r.lease.Some?
    ensures Holds(r, r.lease.value.token, now) <==> !Due(r, now) && !FenceDue(r, now)
  {
  }

  /** What a save must say to be accepted. */
  predicate WellFormed(save: Save) {
    match save
    case Retry(state, _, code, _) => (state == AwaitingYouTubeLive || state == DispatchPending) && IsCode(Lower(Trim(code)))
    case MarkDelivered(lifecycle, messageID) => IsOpaque(Trim(messageID)) && IsCode(Lower(Trim(lifecycle)))
    case MarkUnknown(_, code) => IsCode(Lower(Trim(code)))
    case MarkSuppressed(_, code) => IsCode(Lower(Trim(code)))
  }

  /** A save is accepted exactly when it is well-formed and its worker holds the row, past the fence for what only a Bot call can tell. */
  lemma SaveAcceptedExactlyWhen(r: Row, token: string, save: Save, now: int)
    ensures CanSave(r, token, save, now) <==>
            && WellFormed(save) && Trim(token) != "" && Holds(r, token, now)
            && (if save.MarkDelivered? || save.MarkUnknown? then r.state == BotDispatching
                else r.state == BotDispatching || r.state == Dispatching)
  {
    CodeExactlyWhen(save.lifecycle);
    if !save.MarkDelivered? {
      CodeExactlyWhen(save.code);
    }
  }

  // ------------------------------------------------------ what comes next for a row

  /** A claimed row can be claimed again exactly when its lease has run out; what identifies and counts it is kept. */
  lemma ClaimedIsDueAfterLease(r: Row, token: string, expires: int, now: int)
    ensures var c := Claim(r, token, expires);
            && (Due(c, now) <==> expires <= now) && !FenceDue(c, now)
            && c.attempts == r.attempts + 1 && c.dispatchAttempts == r.dispatchAttempts
            && c == r.(state := c.state, attempts := c.attempts, lease := c.lease)
  {
  }

  /** Behind the fence a row is never claimed again; when its lease runs out it can only be fenced. */
  lemma BegunIsOnlyFenced(r: Row, token: string, begun: int, now: int)
    requires CanBegin(r, token, begun)
    ensures var b := Begin(r);
            && !Due(b, now) && (FenceDue(b, now) <==> r.lease.value.expires <= now)
            && b == r.(state := b.state, dispatchAttempts := r.dispatchAttempts + 1)
            && !Due(Fence(b), now) && !FenceDue(Fence(b), now) && Fence(b).state == DeliveryUnknown
  {
  }

  /** A retry is due exactly from its time on; any other save ends the row for good. */
  lemma SavedIsDueExactlyWhen(r: Row, token: string, save: Save, saved: int, now: int)
    requires CanSave(r, token, save, saved)
    ensures var a := Apply(r, save, saved);
            && (Due(a, now) <==> save.Retry? && save.nextAttempt <= now) && !FenceDue(a, now)
            && (save.MarkDelivered? <==> a.state == Delivered) && (save.MarkUnknown? <==> a.state == DeliveryUnknown)
            && (save.MarkSuppressed? <==> a.state == Suppressed)
            && a.id == r.id && a.eventID == r.eventID && a.attempts == r.attempts && a.dispatchAttempts == r.dispatchAttempts
  {
  }

  // ------------------------------------------------------------- the store

  datatype StoreError = ClaimLost | Invalid

  datatype Claimed = Claimed(row: Row, token: string)

  /** A place in an order by time, then by creation. */
  datatype Place = Place(at: int, created: int)

  predicate NotAfter(a: Place, b: Place) {
    a.at < b.at || (a.at == b.at && a.created <= b.created)
  }

  /** Claims are taken in the order of the due time, or of the lost lease where there is none. */
  function DuePlace(r: Row): Place {
    Place(r.nextAttempt.GetOr(if r.lease.Some? then r.lease.value.expires else 0), r.created)
  }

  /** Expired leases are fenced in the order in which they expired. */
  function LeasePlace(r: Row): Place {
    Place(if r.lease.Some? then r.lease.value.expires else 0, r.created)
  }

  /** No picked row comes before this one. */
  ghost predicate IsFirst(rows: map<string, Row>, pick: Row -> bool, place: Row -> Place, id: string) {
    && id in rows && pick(rows[id])
    && forall o | o in rows && pick(rows[o]) :: NotAfter(place(rows[id]), place(rows[o]))
  }

  /** The claimed row has waited longest: no due row was to be tried, or lost its lease, before it. */
  lemma FirstDueIsEarliest(rows: map<string, Row>, now: int, id: string, other: string)
    requires IsFirst(rows, (r: Row) => Due(r, now), DuePlace, id) && other in rows && Due(rows[other], now)
    ensures rows[id].nextAttempt.Some? && rows[other].nextAttempt.Some? ==>
              var a, b := rows[id].nextAttempt.value, rows[other].nextAttempt.value;
              a <= b && (a == b ==> rows[id].created <= rows[other].created)
    ensures rows[id].nextAttempt.None? && rows[other].nextAttempt.None? ==>
              rows[id].lease.Some? && rows[other].lease.Some? && rows[id].lease.value.expires <= rows[other].lease.value.expires
  {
    var pick := (r: Row) => Due(r, now);
    assert pick(rows[other]);
    assert NotAfter(DuePlace(rows[id]), DuePlace(rows[other]));
  }

  /** The query: the first row in an order, if any is picked. */
  method First(rows: map<string, Row>, pick: Row -> bool, place: Row -> Place) returns (first: Option<string>)
    ensures first.None? <==> forall id | id in rows :: !pick(rows[id])
    ensures first.Some? ==> IsFirst(rows, pick, place, first.value)
  {
    first := None;
    var left := rows.Keys;
    while left != {}
      invariant left <= rows.Keys
      invariant first.None? <==> forall id | id in rows && id !in left :: !pick(rows[id])
      invariant first.Some? ==> first.value in rows && pick(rows[first.value])
      invariant first.Some? ==>
                  forall id | id in rows && id !in left && pick(rows[id]) :: NotAfter(place(rows[first.value]), place(rows[id]))
      decreases left
    {
      var id :| id in left;
      left := left - {id};
      if pick(rows[id]) && (first.None? || !NotAfter(place(rows[first.value]), place(rows[id]))) {
        first := Some(id);
      }
    }
  }

  /** The rows after a list of them has been fenced. */
  function AllFenced(rows: map<string, Row>, ids: seq<string>): (r: map<string, Row>)
    requires forall i | 0 <= i < |ids| :: ids[i] in rows
    ensures r.Keys == rows.Keys
    ensures forall id | id in rows :: r[id] == if id in ids then Fence(rows[id]) else rows[id]
  {
    map id | id in rows :: if id in ids then Fence(rows[id]) else rows[id]
  }

  /** The list is in lease order, and what is left out of it, or comes later in it, is not earlier. */
  ghost predicate FencedInOrder(rows: map<string, Row>, ids: seq<string>, now: int) {
    && (forall i, j | 0 <= i < j < |ids| :: ids[i] != ids[j])
    && (forall i | 0 <= i < |ids| :: FencedAt(rows, ids, now, i))
  }

  ghost predicate FencedAt(rows: map<string, Row>, ids: seq<string>, now: int, i: nat)
    requires i < |ids|
  {
    && ids[i] in rows && FenceDue(rows[ids[i]], now)
    && forall id | id in rows && FenceDue(rows[id], now) && id !in ids[..i] ::
         NotAfter(LeasePlace(rows[ids[i]]), LeasePlace(rows[id]))
  }

  /** The limit a scan works with. */
  function NormalLimit(limit: int): nat {
    if limit <= 0 || limit > 100 then 25 else limit
  }

  lemma FencedNext(rows: map<string, Row>, ids: seq<string>, now: int, id: string)
    requires FencedInOrder(rows, ids, now)
    requires forall i | 0 <= i < |ids| :: ids[i] in rows
    requires IsFirst(AllFenced(rows, ids), (r: Row) => FenceDue(r, now), LeasePlace, id)
    ensures FencedInOrder(rows, ids + [id], now)
    ensures AllFenced(rows, ids + [id]) == AllFenced(rows, ids)[id := Fence(AllFenced(rows, ids)[id])]
  {
    var more, after := ids + [id], AllFenced(rows, ids);
    assert id !in ids && after[id] == rows[id];
    forall i | 0 <= i < |more|
      ensures FencedAt(rows, more, now, i)
    {
      assert more[..i] == ids[..i];
      if i < |ids| {
        assert FencedAt(rows, ids, now, i);
      } else {
        assert ids[..i] == ids;
        assert forall o | o in rows && FenceDue(rows[o], now) && o !in ids :: after[o] == rows[o];
      }
    }
  }

  class Outbox {
    var rows: map<string, Row>

    constructor ()
      ensures rows == map[]
    {
      rows := map[];
    }

    /** Fences expired rows in the order of their leases, up to the limit; fewer only when none is left. */
    method FenceExpired(now: int, limit: int) returns (fenced: seq<string>)
      modifies this
      ensures FencedInOrder(old(rows), fenced, now) && |fenced| <= NormalLimit(limit)
      ensures (forall i | 0 <= i < |fenced| :: fenced[i] in old(rows)) && rows == AllFenced(old(rows), fenced)
      ensures |fenced| < NormalLimit(limit) ==> forall id | id in rows :: !FenceDue(rows[id], now)
    {
      fenced := [];
      assert rows == AllFenced(rows, []);
      while |fenced| < NormalLimit(limit)
        invariant FencedInOrder(old(rows), fenced, now) && |fenced| <= NormalLimit(limit)
        invariant (forall i | 0 <= i < |fenced| :: fenced[i] in old(rows)) && rows == AllFenced(old(rows), fenced)
        decreases NormalLimit(limit) - |fenced|
      {
        var pick := (r: Row) => FenceDue(r, now);
        var first := First(rows, pick, LeasePlace);
        if first.None? {
          assert forall id | id in rows :: !pick(rows[id]);
          return;
        }
        FencedNext(old(rows), fenced, now, first.value);
        rows := rows[first.value := Fence(rows[first.value])];
        fenced := fenced + [first.value];
      }
    }

    /** Claims the first due row, if there is one, under a token and a lease of `ttl`; the batch size is one. */
    method ClaimDue(now: int, ttl: int, token: string) returns (claim: Option<Claimed>)
      requires forall id | id in rows :: rows[id].id == id
      modifies this
      ensures claim.None? ==> rows == old(rows) && forall id | id in rows :: !Due(rows[id], now)
      ensures claim.Some? ==>
                var id := claim.value.row.id;
                && IsFirst(old(rows), (r: Row) => Due(r, now), DuePlace, id)
                && claim.value.token == token
                && claim.value.row == Claim(old(rows)[id], token, now + ttl)
                && rows == old(rows)[id := claim.value.row]
    {
      var pick := (r: Row) => Due(r, now);
      var first := First(rows, pick, DuePlace);
      if first.None? {
        assert forall id | id in rows :: !pick(rows[id]);
        return None;
      }
      var row := Claim(rows[first.value], token, now + ttl);
      assert pick(rows[first.value]);
      assert IsFirst(rows, (r: Row) => Due(r, now), DuePlace, first.value);
      rows := rows[first.value := row];
      return Some(Claimed(row, token));
    }

    /** The fence before the Bot call. */
    method BeginBotDispatch(id: string, token: string, now: int) returns (r: Result<Row, StoreError>)
      modifies this
      ensures r.Ok? <==> id in old(rows) && CanBegin(old(rows)[id], token, now)
      ensures r.Ok? ==> rows == old(rows)[id := Begin(old(rows)[id])] && r.value == rows[id]
      ensures r.Err? ==> rows == old(rows)
    {
      if id !in rows || !CanBegin(rows[id], token, now) {
        return Err(ClaimLost);
      }
      rows := rows[id := Begin(rows[id])];
      return Ok(rows[id]);
    }

    /** Retry, delivered, unknown and suppressed are one conditional update. */
    method UpdateClaimed(id: string, token: string, save: Save, now: int) returns (error: Option<StoreError>)
      modifies this
      ensures error.None? <==> id in old(rows) && CanSave(old(rows)[id], token, save, now)
      ensures error.None? ==> rows == old(rows)[id := Apply(old(rows)[id], save, now)]
      ensures error.Some? ==> rows == old(rows)
    {
      if !SaveValid(save, token) {
        return Some(Invalid);
      }
      if id !in rows || !CanSave(rows[id], token, save, now) {
        return Some(ClaimLost);
      }
      rows := rows[id := Apply(rows[id], save, now)];
      return None;
    }
  }
}
