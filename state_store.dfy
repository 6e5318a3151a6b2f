/**
 * The agent's SQLite store (state_store.py): the persistent `callers` table
 * keyed by phone number, the per-call `call_state` table holding one JSON
 * blob per call, and the append-only `consent_log`.  Clock readings are
 * parameters (`now`, in seconds).
 */
module StateStore {

  import opened Wrappers
  import opened Values

  // ---------------------------------------------------------------- callers

  /** The columns of the `callers` table. */
  datatype Column =
    | Phone | OwnerName | LineType | SmsEligible | CandidateEmail | CandidateAddress
    | AddressNormalized | GeocodeLat | GeocodeLng | GeocodeConfidence | DpvMatchCode
    | ValidatedEmail | ValidatedAddress | TrestleRaw | LastEnrichedAt | LastCallAt
    | CreatedAt | UpdatedAt
  {
    /** The column's SQL name, which is also the keyword `upsert_caller` takes for it. */
    function Name(): string {
      match this
      case Phone => "phone"
      case OwnerName => "owner_name"
      case LineType => "line_type"
      case SmsEligible => "sms_eligible"
      case CandidateEmail => "candidate_email"
      case CandidateAddress => "candidate_address"
      case AddressNormalized => "address_normalized"
      case GeocodeLat => "geocode_lat"
      case GeocodeLng => "geocode_lng"
      case GeocodeConfidence => "geocode_confidence"
      case DpvMatchCode => "dpv_match_code"
      case ValidatedEmail => "validated_email"
      case ValidatedAddress => "validated_address"
      case TrestleRaw => "trestle_raw"
      case LastEnrichedAt => "last_enriched_at"
      case LastCallAt => "last_call_at"
      case CreatedAt => "created_at"
      case UpdatedAt => "updated_at"
    }

    /** Whether `upsert_caller`'s whitelist lets a keyword argument set this column. */
    predicate Accepted() {
      !(Phone? || CreatedAt? || UpdatedAt?)
    }
  }

  /**
   * A `callers` row as `dict(row)` returns it.  A column without an entry
   * holds NULL (see `Cell`), so the map carries only the columns written.
   */
  type CallerRow = map<Column, Value>

  /** `row[c]`: NULL for a column never written. */
  function Cell(row: CallerRow, c: Column): Value {
    if c in row then row[c] else Null
  }

  /** What SQLite keeps of a bound Python value: a bool becomes the integer 1 or 0. */
  function Stored(v: Value): (s: Value)
    ensures !s.Bool?
    ensures s == Null <==> v == Null
    ensures !v.Bool? ==> s == v
  {
    if v.Bool? then Num(if v.b then 1 else 0) else v
  }

  /** The keyword arguments that survive the whitelist, as SQLite stores them. */
  function Filtered(fields: map<Column, Value>): (f: map<Column, Value>)
    ensures forall c :: c in f <==> c in fields && c.Accepted()
    ensures forall c :: c in f ==> f[c] == Stored(fields[c])
  {
    map c | c in fields && c.Accepted() :: Stored(fields[c])
  }

  /** The row the INSERT creates for a phone number seen for the first time. */
  function InsertedRow(phone: string, fields: map<Column, Value>, now: int): (row: CallerRow)
    ensures Cell(row, Phone) == Str(phone) && Cell(row, CreatedAt) == Time(now) && Cell(row, UpdatedAt) == Time(now)
    ensures forall c: Column :: c.Accepted() && c in fields ==> Cell(row, c) == Stored(fields[c])
    ensures forall c: Column :: c.Accepted() && c !in fields ==> Cell(row, c) == if c == Column.SmsEligible then Num(0) else Null
  {
    map[Phone := Str(phone), Column.SmsEligible := Num(0), CreatedAt := Time(now), UpdatedAt := Time(now)] + Filtered(fields)
  }

  /** `ON CONFLICT DO UPDATE`: `k = COALESCE(excluded.k, callers.k)` for each accepted k, and a new `updated_at`. */
  function MergedRow(row: CallerRow, fields: map<Column, Value>, now: int): (merged: CallerRow)
    ensures Cell(merged, UpdatedAt) == Time(now)
    ensures forall c: Column :: c.Accepted() && c in fields && fields[c] != Null ==> Cell(merged, c) == Stored(fields[c])
    ensures forall c :: c != UpdatedAt && !(c.Accepted() && c in fields && fields[c] != Null) ==>
      Cell(merged, c) == Cell(row, c)
  {
    var f := Filtered(fields);
    row + (map c | c in f && f[c] != Null :: f[c]) + map[UpdatedAt := Time(now)]
  }

  predicate CallersWellFormed(callers: map<string, CallerRow>) {
    forall p :: p in callers ==> Cell(callers[p], Phone) == Str(p)
  }

  /** The row `upsert_caller(phone, **fields)` leaves for `phone`. */
  function UpsertedRow(callers: map<string, CallerRow>, phone: string, fields: map<Column, Value>, now: int): (row: CallerRow)
    ensures Cell(row, Phone) == (if phone in callers then Cell(callers[phone], Phone) else Str(phone))
    ensures Cell(row, UpdatedAt) == Time(now)
    ensures phone in callers ==> Cell(row, CreatedAt) == Cell(callers[phone], CreatedAt)
    ensures forall c :: c in fields && c.Accepted() && fields[c] != Null ==> c in row && row[c] == Stored(fields[c])
  {
    if phone in callers then MergedRow(callers[phone], fields, now) else InsertedRow(phone, fields, now)
  }

  /** The `callers` table after `upsert_caller(phone, **fields)`. */
  function Upserted(callers: map<string, CallerRow>, phone: string, fields: map<Column, Value>, now: int): (r: map<string, CallerRow>)
    requires CallersWellFormed(callers)
    ensures CallersWellFormed(r)
    ensures r.Keys == callers.Keys + {phone}
    ensures r == callers[phone := r[phone]]
    ensures phone in callers ==> Cell(r[phone], CreatedAt) == Cell(callers[phone], CreatedAt)
    ensures Cell(r[phone], UpdatedAt) == Time(now)
  {
    callers[phone := UpsertedRow(callers, phone, fields, now)]
  }

  /** Keyword arguments outside the whitelist (`phone`, `created_at`, `updated_at`) make no difference at all. */
  lemma UpsertIgnoresUnknownFields(callers: map<string, CallerRow>, phone: string, fields: map<Column, Value>, now: int)
    requires CallersWellFormed(callers)
    ensures Upserted(callers, phone, fields, now)
         == Upserted(callers, phone, map c | c in fields && c.Accepted() :: fields[c], now)
  {
    var known := map c | c in fields && c.Accepted() :: fields[c];
    assert Filtered(known) == Filtered(fields);
  }

  /** The key-by-key COALESCE, finished by the new `updated_at`, is the merge. */
  lemma MergedPointwise(existing: CallerRow, updated: CallerRow, fields: map<Column, Value>, now: int)
    requires forall c :: c in updated <==> c in existing || (c in Filtered(fields) && Filtered(fields)[c] != Null)
    requires forall c :: c in updated ==>
      updated[c] == if c in Filtered(fields) && Filtered(fields)[c] != Null then Filtered(fields)[c] else existing[c]
    ensures updated[UpdatedAt := Time(now)] == MergedRow(existing, fields, now)
  {
    var merged := MergedRow(existing, fields, now);
    assert updated[UpdatedAt := Time(now)].Keys == merged.Keys;
  }

  /** A row that already holds every non-null accepted field and the new `updated_at` is left as it is by the merge. */
  lemma MergeSettled(row: CallerRow, fields: map<Column, Value>, now: int)
    requires UpdatedAt in row && row[UpdatedAt] == Time(now)
    requires forall c :: c in fields && c.Accepted() && fields[c] != Null ==> c in row && row[c] == Stored(fields[c])
    ensures MergedRow(row, fields, now) == row
  {
    var f := Filtered(fields);
    var nonNull := map c | c in f && f[c] != Null :: f[c];
    assert forall c :: c in nonNull ==> c in row && row[c] == nonNull[c];
    assert (row + nonNull).Keys == row.Keys;
    assert row + nonNull == row;
    assert row + map[UpdatedAt := Time(now)] == row;
    assert MergedRow(row, fields, now) == row + nonNull + map[UpdatedAt := Time(now)];
  }

  /** Upserting the same fields twice at the same instant is the same as once. */
  lemma UpsertIdempotent(callers: map<string, CallerRow>, phone: string, fields: map<Column, Value>, now: int)
    requires CallersWellFormed(callers)
    ensures Upserted(Upserted(callers, phone, fields, now), phone, fields, now) == Upserted(callers, phone, fields, now)
  {
    var row := UpsertedRow(callers, phone, fields, now);
    var first := Upserted(callers, phone, fields, now);
    assert first == callers[phone := row];
    MergeSettled(row, fields, now);
    assert UpsertedRow(first, phone, fields, now) == row == first[phone];
    RewriteSame(first, phone);
  }

  /** Writing back the value a map already holds leaves the map as it was. */
  lemma RewriteSame<K, V>(m: map<K, V>, k: K)
    requires k in m
    ensures m[k := m[k]] == m
  {
  }

  /** The SET list of the conflict clause, one column at a time: `k = COALESCE(excluded.k, callers.k)`. */
  method Coalesce(existing: CallerRow, filtered: map<Column, Value>) returns (updated: CallerRow)
    ensures forall c :: c in updated <==> c in existing || (c in filtered && filtered[c] != Null)
    ensures forall c :: c in updated ==>
      updated[c] == if c in filtered && filtered[c] != Null then filtered[c] else existing[c]
  {
    updated := existing;
    var pending := filtered.Keys;
    while pending != {}
      invariant pending <= filtered.Keys
      invariant forall c :: c in updated <==> c in existing || (c in filtered && c !in pending && filtered[c] != Null)
      invariant forall c :: c in updated ==>
        updated[c] == if c in filtered && c !in pending && filtered[c] != Null then filtered[c] else existing[c]
      decreases |pending|
    {
      var c :| c in pending;
      if filtered[c] != Null {
        updated := updated[c := filtered[c]];
      }
      pending := pending - {c};
    }
  }

  /** The conflict branch of the upsert: the COALESCE columns, then `updated_at`. */
  method MergeRow(existing: CallerRow, fields: map<Column, Value>, now: int) returns (merged: CallerRow)
    ensures merged == MergedRow(existing, fields, now)
  {
    var updated := Coalesce(existing, Filtered(fields));
    MergedPointwise(existing, updated, fields, now);
    merged := updated[UpdatedAt := Time(now)];
  }

  /** The statement's two branches: the INSERT of a new row, or the merge into the row already there. */
  method UpsertRow(callers: map<string, CallerRow>, phone: string, fields: map<Column, Value>, now: int)
    returns (row: CallerRow)
    ensures row == UpsertedRow(callers, phone, fields, now)
  {
    if phone in callers {
      row := MergeRow(callers[phone], fields, now);
    } else {
      row := InsertedRow(phone, fields, now);
    }
  }

  // ---------------------------------------------------------------- staleness

  const DefaultTtlDays: int := 180
  const SecondsPerDay: int := 86400

  /** `caller.get("last_enriched_at")`. */
  function LastEnriched(caller: CallerRow): Value {
    Cell(caller, LastEnrichedAt)
  }

  /**
   * `caller_is_stale`: a missing or unreadable `last_enriched_at` is stale;
   * otherwise stale iff strictly more than `ttlDays` days have passed.
   */
  function IsStale(caller: CallerRow, now: int, ttlDays: int): (stale: bool)
    ensures LastEnriched(caller) == Null ==> stale
    ensures !LastEnriched(caller).Time? ==> stale
    ensures LastEnriched(caller).Time? ==> (stale <==> now - LastEnriched(caller).t > ttlDays * SecondsPerDay)
  {
    var enriched := LastEnriched(caller);
    if !Truthy(enriched) then true
    else if enriched.Time? then now - enriched.t > ttlDays * SecondsPerDay
    else true
  }

  /** A record enriched exactly `ttlDays` ago is still fresh; one second later it is stale. */
  lemma StaleBoundary(caller: CallerRow, t: int, ttlDays: int)
    requires LastEnriched(caller) == Time(t)
    ensures !IsStale(caller, t + ttlDays * SecondsPerDay, ttlDays)
    ensures IsStale(caller, t + ttlDays * SecondsPerDay + 1, ttlDays)
  {
  }

  /** Once stale, a record stays stale as time passes. */
  lemma StaleMonotone(caller: CallerRow, now1: int, now2: int, ttlDays: int)
    requires now1 <= now2 && IsStale(caller, now1, ttlDays)
    ensures IsStale(caller, now2, ttlDays)
  {
  }

  // ------------------------------------------------------------ call state

  /** The keys of the per-call state blob: the defaults, then the ones the tools add. */
  datatype Key =
    | OwnerName | LineType | SmsEligible | CandidateEmail
    | CandidateAddress | AddressNormalized | RecordSource | IdentityConfirmed
    | IdentityMismatch | WorkingEmail | EmailSource | EmailAttempts
    | SpellingAttempts | ZbStatus | ZbSubStatus | EmailConsent
    | SmsConsent | FollowUpRequired | FollowUpReason | CollectedAddress
    | AddressSource | AddressAttempts | AddressValidationStatus | PendingAddress
    | PendingAddressRaw | PendingGeocode | PostmarkMessageId
  {
    /** The key as it appears in `state_json`. */
    function Name(): string {
      match this
      case OwnerName => "owner_name"
      case LineType => "line_type"
      case SmsEligible => "sms_eligible"
      case CandidateEmail => "candidate_email"
      case CandidateAddress => "candidate_address"
      case AddressNormalized => "address_normalized"
      case RecordSource => "record_source"
      case IdentityConfirmed => "identity_confirmed"
      case IdentityMismatch => "identity_mismatch"
      case WorkingEmail => "working_email"
      case EmailSource => "email_source"
      case EmailAttempts => "email_attempts"
      case SpellingAttempts => "spelling_attempts"
      case ZbStatus => "zb_status"
      case ZbSubStatus => "zb_sub_status"
      case EmailConsent => "email_consent"
      case SmsConsent => "sms_consent"
      case FollowUpRequired => "follow_up_required"
      case FollowUpReason => "follow_up_reason"
      case CollectedAddress => "collected_address"
      case AddressSource => "address_source"
      case AddressAttempts => "address_attempts"
      case AddressValidationStatus => "address_validation_status"
      case PendingAddress => "pending_address"
      case PendingAddressRaw => "pending_address_raw"
      case PendingGeocode => "pending_geocode"
      case PostmarkMessageId => "postmark_message_id"
    }
  }

  /** The per-call state blob. */
  type Session = map<Key, Value>

  /** `DEFAULT_CALL_STATE`. */
  const DefaultCallState: Session := map[
    Key.OwnerName := Null,
    Key.LineType := Null,
    Key.SmsEligible := Bool(false),
    Key.CandidateEmail := Null,
    Key.CandidateAddress := Null,
    Key.AddressNormalized := Null,
    RecordSource := Str("new"),
    IdentityConfirmed := Bool(false),
    IdentityMismatch := Bool(false),
    WorkingEmail := Null,
    EmailSource := Null,
    EmailAttempts := Num(0),
    SpellingAttempts := Num(0),
    ZbStatus := Null,
    ZbSubStatus := Null,
    EmailConsent := Null,
    SmsConsent := Null,
    FollowUpRequired := Bool(false),
    FollowUpReason := Null,
    CollectedAddress := Null,
    AddressSource := Null,
    AddressAttempts := Num(0),
    AddressValidationStatus := Null]

  /** A `call_state` row; `state` is the decoded `state_json`. */
  datatype SessionRow = SessionRow(phone: Value, state: Session, createdAt: int, updatedAt: int)

  /** `load_call_state`: the defaults, overridden key by key by the stored blob. */
  function Loaded(sessions: map<string, SessionRow>, callId: string): (state: Session)
    ensures callId !in sessions ==> state == DefaultCallState
    ensures callId in sessions ==>
      && state.Keys == DefaultCallState.Keys + sessions[callId].state.Keys
      && (forall k :: k in sessions[callId].state ==> state[k] == sessions[callId].state[k])
      && (forall k :: k in DefaultCallState && k !in sessions[callId].state ==> state[k] == DefaultCallState[k])
  {
    if callId in sessions then DefaultCallState + sessions[callId].state else DefaultCallState
  }

  /** `save_call_state`: the blob is replaced whole; a new row takes `phone` and `now` as its creation time. */
  function Saved(sessions: map<string, SessionRow>, callId: string, phone: Value, state: Session, now: int): (r: map<string, SessionRow>)
    ensures r.Keys == sessions.Keys + {callId}
    ensures forall id :: id in sessions && id != callId ==> r[id] == sessions[id]
    ensures r[callId].state == state && r[callId].updatedAt == now
    ensures callId in sessions ==> r[callId].createdAt == sessions[callId].createdAt && r[callId].phone == sessions[callId].phone
  {
    if callId in sessions then
      var row := sessions[callId];
      sessions[callId := SessionRow(row.phone, state, row.createdAt, now)]
    else sessions[callId := SessionRow(phone, state, now, now)]
  }

  /** Loading what was just saved gives it back, completed by the defaults it lacks. */
  lemma SaveThenLoad(sessions: map<string, SessionRow>, callId: string, phone: Value, state: Session, now: int)
    ensures Loaded(Saved(sessions, callId, phone, state, now), callId) == DefaultCallState + state
    ensures DefaultCallState.Keys <= state.Keys ==> Loaded(Saved(sessions, callId, phone, state, now), callId) == state
  {
    if DefaultCallState.Keys <= state.Keys {
      assert DefaultCallState + state == state;
    }
  }

  /** Saving twice in one handler leaves what the second save wrote. */
  lemma SaveTwice(sessions: map<string, SessionRow>, callId: string, phone: Value, first: Session, second: Session, now: int)
    ensures Saved(Saved(sessions, callId, phone, first, now), callId, phone, second, now) == Saved(sessions, callId, phone, second, now)
  {
  }

  /** After a delete, loading that call gives the defaults again, and deleting again changes nothing. */
  lemma DeleteThenLoad(sessions: map<string, SessionRow>, callId: string)
    ensures Loaded(sessions - {callId}, callId) == DefaultCallState
    ensures (sessions - {callId}) - {callId} == sessions - {callId}
  {
  }

  /** `cleanup_stale_states`: the rows last updated before `cutoff` are gone, the others are kept as they were. */
  function Pruned(sessions: map<string, SessionRow>, cutoff: int): (r: map<string, SessionRow>)
    ensures forall id :: id in r <==> id in sessions && sessions[id].updatedAt >= cutoff
    ensures forall id :: id in r ==> r[id] == sessions[id]
  {
    map id | id in sessions && !(sessions[id].updatedAt < cutoff) :: sessions[id]
  }

  // ------------------------------------------------------------- consent log

  /** The two values the `consent_type` CHECK constraint admits. */
  datatype ConsentType = Sms | EmailSend {
    function Name(): string {
      match this
      case Sms => "sms"
      case EmailSend => "email_send"
    }
  }

  datatype ConsentRow = ConsentRow(
    id: nat, phone: string, callId: string, consentType: ConsentType,
    consented: int, transcriptSnippet: Value, createdAt: int)

  /** Ids count up from 1 with no gaps (AUTOINCREMENT with no deletes), and `consented` is 0 or 1. */
  predicate LogWellFormed(log: seq<ConsentRow>) {
    forall i :: 0 <= i < |log| ==> log[i].id == i + 1 && (log[i].consented == 0 || log[i].consented == 1)
  }

  /** Rows were appended in clock order. */
  predicate Chronological(log: seq<ConsentRow>) {
    forall i, j :: 0 <= i < j < |log| ==> log[i].createdAt <= log[j].createdAt
  }

  /** `get_consent_history`: that phone's rows, the most recently appended first. */
  function History(log: seq<ConsentRow>, phone: string): (rows: seq<ConsentRow>)
    ensures |rows| <= |log|
    ensures forall k :: 0 <= k < |rows| ==> rows[k].phone == phone
  {
    if log == [] then []
    else
      var last := log[|log| - 1];
      (if last.phone == phone then [last] else []) + History(log[..|log| - 1], phone)
  }

  /** The history holds rows of the log and nothing else, and every row of that phone. */
  lemma {:induction false} HistoryRows(log: seq<ConsentRow>, phone: string)
    ensures forall k :: 0 <= k < |History(log, phone)| ==> History(log, phone)[k] in log
    ensures forall i :: 0 <= i < |log| && log[i].phone == phone ==> log[i] in History(log, phone)
    decreases |log|
  {
    if log != [] {
      var init := log[..|log| - 1];
      HistoryRows(init, phone);
      assert forall i :: 0 <= i < |init| ==> log[i] == init[i];
      assert forall r :: r in init ==> r in log;
    }
  }

  /** One more row of the log puts that row in front when it is the phone's. */
  lemma HistoryStep(log: seq<ConsentRow>, i: int, phone: string)
    requires 0 <= i < |log|
    ensures History(log[..i + 1], phone) == (if log[i].phone == phone then [log[i]] else []) + History(log[..i], phone)
  {
    var s := log[..i + 1];
    assert s[|s| - 1] == log[i];
    assert s[..|s| - 1] == log[..i];
  }

  predicate NewestFirst(rows: seq<ConsentRow>) {
    forall i, j :: 0 <= i < j < |rows| ==> rows[i].createdAt >= rows[j].createdAt
  }

  /** Putting a row no older than any of them in front of rows ordered newest first keeps them so. */
  lemma NewestFirstPrepend(row: ConsentRow, rows: seq<ConsentRow>)
    requires NewestFirst(rows)
    requires forall k :: 0 <= k < |rows| ==> rows[k].createdAt <= row.createdAt
    ensures NewestFirst([row] + rows)
  {
    var h := [row] + rows;
    forall i, j | 0 <= i < j < |h|
      ensures h[i].createdAt >= h[j].createdAt
    {
      assert h[j] == rows[j - 1];
      if i > 0 {
        assert h[i] == rows[i - 1];
      }
    }
  }

  /** On a log appended in clock order, the history is ordered newest first. */
  lemma {:induction false} HistoryNewestFirst(log: seq<ConsentRow>, phone: string)
    requires Chronological(log)
    ensures NewestFirst(History(log, phone))
    decreases |log|
  {
    if log != [] {
      var init := log[..|log| - 1];
      var last := log[|log| - 1];
      assert Chronological(init);
      HistoryNewestFirst(init, phone);
      HistoryRows(init, phone);
      var rest := History(init, phone);
      forall k | 0 <= k < |rest|
        ensures rest[k].createdAt <= last.createdAt
      {
        var i :| 0 <= i < |init| && init[i] == rest[k];
        assert init[i] == log[i];
      }
      if last.phone == phone {
        NewestFirstPrepend(last, rest);
      }
    }
  }

  // ---------------------------------------------------------------- the store

  /** The three tables. */
  class Database {
    var callers: map<string, CallerRow>
    var sessions: map<string, SessionRow>
    var consents: seq<ConsentRow>

    ghost predicate Valid()
      reads this
    {
      CallersWellFormed(callers) && LogWellFormed(consents)
    }

    constructor()
      ensures Valid()
      ensures callers == map[] && sessions == map[] && consents == []
    {
      callers := map[];
      sessions := map[];
      consents := [];
    }

    /** `get_caller_by_phone`. */
    method GetCallerByPhone(phone: string) returns (caller: Option<CallerRow>)
      ensures caller.Some? <==> phone in callers
      ensures caller.Some? ==> caller.value == callers[phone]
    {
      if phone in callers {
        caller := Some(callers[phone]);
      } else {
        caller := None;
      }
    }

    /** `upsert_caller`: insert, or COALESCE each accepted field into the existing row. */
    method UpsertCaller(phone: string, fields: map<Column, Value>, now: int) returns (row: CallerRow)
      requires Valid()
      modifies this
      ensures Valid()
      ensures callers == Upserted(old(callers), phone, fields, now)
      ensures row == callers[phone]
      ensures sessions == old(sessions) && consents == old(consents)
    {
      row := UpsertRow(callers, phone, fields, now);
      callers := callers[phone := row];
    }

    /** `load_call_state`. */
    method LoadCallState(callId: string) returns (state: Session)
      ensures state == Loaded(sessions, callId)
    {
      if callId in sessions {
        state := DefaultCallState + sessions[callId].state;
      } else {
        state := DefaultCallState;
      }
    }

    /** `save_call_state`. */
    method SaveCallState(callId: string, state: Session, phone: Value, now: int)
      requires Valid()
      modifies this
      ensures Valid()
      ensures sessions == Saved(old(sessions), callId, phone, state, now)
      ensures callers == old(callers) && consents == old(consents)
    {
      if callId in sessions {
        var row := sessions[callId];
        sessions := sessions[callId := row.(state := state, updatedAt := now)];
      } else {
        sessions := sessions[callId := SessionRow(phone, state, now, now)];
      }
    }

    /** `delete_call_state`. */
    method DeleteCallState(callId: string)
      requires Valid()
      modifies this
      ensures Valid()
      ensures sessions == old(sessions) - {callId}
      ensures callers == old(callers) && consents == old(consents)
    {
      sessions := sessions - {callId};
    }

    /** `cleanup_stale_states`: delete every row last updated more than `maxAgeHours` hours before `now`. */
    method CleanupStaleStates(maxAgeHours: int, now: int)
      requires Valid()
      modifies this
      ensures Valid()
      ensures sessions == Pruned(old(sessions), now - maxAgeHours * 3600)
      ensures callers == old(callers) && consents == old(consents)
    {
      var cutoff := now - maxAgeHours * 3600;
      var pending := sessions.Keys;
      while pending != {}
        invariant pending <= old(sessions).Keys
        invariant forall id :: id in sessions <==>
          id in old(sessions) && (id in pending || old(sessions)[id].updatedAt >= cutoff)
        invariant forall id :: id in sessions ==> sessions[id] == old(sessions)[id]
        invariant callers == old(callers) && consents == old(consents)
        decreases |pending|
      {
        var id :| id in pending;
        if sessions[id].updatedAt < cutoff {
          sessions := sessions - {id};
        }
        pending := pending - {id};
      }
      assert sessions.Keys == Pruned(old(sessions), cutoff).Keys;
    }

    /** `log_consent`: append one row, never touching the earlier ones. */
    method LogConsent(phone: string, callId: string, consentType: ConsentType, consented: bool,
                      transcriptSnippet: Value, now: int)
      requires Valid()
      modifies this
      ensures Valid()
      ensures consents == old(consents) + [ConsentRow(|old(consents)| + 1, phone, callId, consentType,
                                                      if consented then 1 else 0, transcriptSnippet, now)]
      ensures callers == old(callers) && sessions == old(sessions)
    {
      consents := consents + [ConsentRow(|consents| + 1, phone, callId, consentType,
                                         if consented then 1 else 0, transcriptSnippet, now)];
    }

    /** `get_consent_history`: one pass over the log, each matching row put in front. */
    method GetConsentHistory(phone: string) returns (rows: seq<ConsentRow>)
      ensures rows == History(consents, phone)
    {
      var log := consents;
      rows := [];
      for i := 0 to |log|
        invariant rows == History(log[..i], phone)
      {
        HistoryStep(log, i, phone);
        if log[i].phone == phone {
          rows := [log[i]] + rows;
        }
      }
      assert log[..|log|] == log;
    }
  }
}
