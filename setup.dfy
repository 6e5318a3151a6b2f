/**
 * What `_per_call_config` (veronica.py) decides before the conversation
 * starts: which path the caller takes (new, returning and fresh, returning
 * and stale), what it knows about them afterwards, what it writes back to
 * the `callers` table, the global data it hands the platform, the greeting
 * it picks and which steps it removes.  The identity lookup's answer, the
 * extras rebuilt from a stored lookup payload and `_enrich_address` are
 * parameters.
 */
module Setup {

  import opened Wrappers
  import opened Values
  import opened ApiClients
  import opened StateStore
  import opened Flow
  import opened Enrichment
  import opened Globals

  /** The fields of the request body `_per_call_config` looks at: `function`, `post_prompt_data`, `summary` and `call.from` ("" when absent). */
  datatype Body = Body(toolCall: Value, postPromptData: Value, summary: Value, caller: string)

  /** Only the initial request of a call from a known number is set up: not a tool call, not the post-prompt. */
  predicate IsSetupRequest(b: Body) {
    !Truthy(b.toolCall) && !(Truthy(b.postPromptData) || Truthy(b.summary)) && b.caller != ""
  }

  /** `record_source`. */
  datatype RecordSource = New | Returning | Refreshed {
    function Name(): string {
      match this
      case New => "new"
      case Returning => "returning"
      case Refreshed => "refreshed"
    }
  }

  /** The greeting the step is rewritten for. */
  datatype Opening = WelcomeBack | KnownCaller | UnknownCaller

  /** The locals `_per_call_config` ends with, and the fields it upserts on the way. */
  datatype Profile = Profile(
    ownerName: Value, candidateEmail: Value, candidateAddress: Value, addressNormalized: Value,
    lineType: Value, smsEligible: bool, source: RecordSource, extras: GlobalData,
    upsert: Option<map<Column, Value>>)

  /** Nothing known: a new caller whose identity lookup failed. */
  const Unknown: Profile := Profile(Null, Null, Null, Null, Null, false, New, map[], None)

  /** `get_caller_by_phone`. */
  function CallerOf(callers: map<string, CallerRow>, phone: string): (c: Option<CallerRow>)
    ensures c.Some? <==> phone in callers
    ensures c.Some? ==> c.value == callers[phone]
  {
    if phone in callers then Some(callers[phone]) else None
  }

  /** The stored record as the returning paths read it: the validated email before the candidate, the normalized address before the raw one. */
  function FromRecord(c: CallerRow, source: RecordSource): (p: Profile)
    ensures p.ownerName == Cell(c, Column.OwnerName) && p.lineType == Cell(c, Column.LineType)
    ensures p.candidateEmail == Or(Cell(c, ValidatedEmail), Cell(c, Column.CandidateEmail))
    ensures p.candidateAddress == Or(Cell(c, Column.AddressNormalized), Cell(c, Column.CandidateAddress))
    ensures p.addressNormalized == Cell(c, Column.AddressNormalized)
    ensures p.smsEligible == Truthy(Cell(c, Column.SmsEligible))
    ensures p.source == source && p.extras == map[] && p.upsert.None?
  {
    Profile(Cell(c, Column.OwnerName), Or(Cell(c, ValidatedEmail), Cell(c, Column.CandidateEmail)),
            Or(Cell(c, Column.AddressNormalized), Cell(c, Column.CandidateAddress)), Cell(c, Column.AddressNormalized),
            Cell(c, Column.LineType), Truthy(Cell(c, Column.SmsEligible)), source, map[], None)
  }

  /** The geocode fields the returning path backfills. */
  function BackfillFields(e: Enriched): map<Column, Value> {
    map[Column.AddressNormalized := e.normalized, GeocodeLat := e.lat, GeocodeLng := e.lng,
        GeocodeConfidence := e.confidence, DpvMatchCode := e.dpv]
  }

  /**
   * The returning, fresh path: the stored record, the extras rebuilt from
   * the stored lookup payload, and a geocode backfill when the record has a
   * raw address but no latitude.
   */
  function Recalled(c: CallerRow, rebuild: Value -> Option<Lookup>, enrich: Value -> Enriched): (p: Profile)
    ensures p.source == Returning
    ensures p.ownerName == Cell(c, Column.OwnerName)
    ensures p.candidateEmail == Or(Cell(c, ValidatedEmail), Cell(c, Column.CandidateEmail))
    ensures p.extras == if Truthy(Cell(c, TrestleRaw)) then TrestleExtras(rebuild(Cell(c, TrestleRaw))) else map[]
    ensures p.upsert.Some? <==>
      Truthy(Cell(c, Column.CandidateAddress)) && !Truthy(Cell(c, GeocodeLat)) && Truthy(enrich(Cell(c, Column.CandidateAddress)).lat)
    ensures p.upsert.Some? ==> p.upsert.value == BackfillFields(enrich(Cell(c, Column.CandidateAddress)))
    ensures p.extras.Keys <= ExtraKeys
    ensures p.lineType == Cell(c, Column.LineType) && p.smsEligible == Truthy(Cell(c, Column.SmsEligible))
    ensures p.addressNormalized ==
      if Truthy(Cell(c, Column.CandidateAddress)) && !Truthy(Cell(c, GeocodeLat))
      then enrich(Cell(c, Column.CandidateAddress)).normalized
      else Cell(c, Column.AddressNormalized)
    ensures p.upsert.None? ==>
      p.candidateAddress == Or(Cell(c, Column.AddressNormalized), Cell(c, Column.CandidateAddress))
    ensures p.upsert.Some? ==>
      p.candidateAddress == Or(enrich(Cell(c, Column.CandidateAddress)).normalized,
                               Or(Cell(c, Column.AddressNormalized), Cell(c, Column.CandidateAddress)))
  {
    var raw := Cell(c, TrestleRaw);
    ExtrasKeys(rebuild(raw));
    var extras := if Truthy(raw) then TrestleExtras(rebuild(raw)) else map[];
    var stored := Or(Cell(c, Column.AddressNormalized), Cell(c, Column.CandidateAddress));
    var rawAddress := Cell(c, Column.CandidateAddress);
    var backfill := Truthy(rawAddress) && !Truthy(Cell(c, GeocodeLat));
    var e := enrich(rawAddress);
    var normalized := if backfill then e.normalized else Cell(c, Column.AddressNormalized);
    var upsert := if backfill && Truthy(e.lat) then Some(BackfillFields(e)) else None;
    var address := if upsert.Some? then Or(e.normalized, stored) else stored;
    Profile(Cell(c, Column.OwnerName), Or(Cell(c, ValidatedEmail), Cell(c, Column.CandidateEmail)), address, normalized,
            Cell(c, Column.LineType), Truthy(Cell(c, Column.SmsEligible)), Returning, extras, upsert)
  }

  /** What the enriching paths upsert: the lookup's answer, the enrichment, the raw payload and two timestamps. */
  function LookupFields(t: Lookup, ownerName: Value, lineType: Value, e: Enriched, now: int): map<Column, Value> {
    map[Column.OwnerName := ownerName, Column.LineType := lineType, Column.SmsEligible := Bool(t.smsEligible),
        Column.CandidateEmail := t.candidateEmail, Column.CandidateAddress := t.candidateAddress,
        Column.AddressNormalized := e.normalized, GeocodeLat := e.lat, GeocodeLng := e.lng,
        GeocodeConfidence := e.confidence, DpvMatchCode := e.dpv, TrestleRaw := t.rawResponse,
        LastEnrichedAt := Time(now), LastCallAt := Time(now)]
  }

  /**
   * The enriching paths once the identity lookup answered: a new caller
   * takes its answer as is; a stale record keeps its own value wherever the
   * answer is empty.  Either way the address is enriched and everything upserted.
   */
  function LookedUp(t: Lookup, stored: Option<CallerRow>, enrich: Value -> Enriched, now: int): (p: Profile)
    ensures p.source == (if stored.Some? then Refreshed else New)
    ensures stored.None? ==>
      && p.ownerName == t.ownerName && p.candidateEmail == t.candidateEmail && p.candidateAddress == t.candidateAddress
      && p.lineType == Str(t.lineType)
    ensures stored.Some? ==>
      var f := FromRecord(stored.value, Refreshed);
      && p.ownerName == Or(t.ownerName, f.ownerName)
      && p.candidateEmail == Or(t.candidateEmail, f.candidateEmail)
      && p.candidateAddress == Or(t.candidateAddress, f.candidateAddress)
      && p.lineType == Or(Str(t.lineType), f.lineType)
    ensures p.smsEligible == t.smsEligible && p.extras == TrestleExtras(Some(t)) && p.extras.Keys <= ExtraKeys
    ensures p.addressNormalized == enrich(p.candidateAddress).normalized
    ensures p.upsert == Some(LookupFields(t, p.ownerName, p.lineType, enrich(p.candidateAddress), now))
  {
    ExtrasKeys(Some(t));
    var (ownerName, email, address, lineType, source) :=
      match stored
      case None => (t.ownerName, t.candidateEmail, t.candidateAddress, Str(t.lineType), New)
      case Some(c) =>
        var f := FromRecord(c, Refreshed);
        (Or(t.ownerName, f.ownerName), Or(t.candidateEmail, f.candidateEmail),
         Or(t.candidateAddress, f.candidateAddress), Or(Str(t.lineType), f.lineType), Refreshed);
    var e := enrich(address);
    Profile(ownerName, email, address, e.normalized, lineType, t.smsEligible, source, TrestleExtras(Some(t)),
            Some(LookupFields(t, ownerName, lineType, e, now)))
  }

  /** The three paths of `_per_call_config`, chosen by whether a record exists and whether it is stale. */
  function ProfileOf(caller: Option<CallerRow>, lookup: Option<Lookup>, rebuild: Value -> Option<Lookup>,
                     enrich: Value -> Enriched, now: int): (p: Profile)
    ensures forall k :: k in p.extras ==> !IsCore(k)
  {
    ExtrasAreNotCore();
    match caller
    case None => if lookup.Some? then LookedUp(lookup.value, None, enrich, now) else Unknown
    case Some(c) =>
      if !IsStale(c, now, DefaultTtlDays) then Recalled(c, rebuild, enrich)
      else if lookup.Some? then LookedUp(lookup.value, Some(c), enrich, now)
      else FromRecord(c, Refreshed)
  }

  /** `display_address`. */
  function DisplayAddress(p: Profile): Value {
    Or(p.addressNormalized, p.candidateAddress)
  }

  /** The seven core fields of the call's global data, each with its fallback. */
  function CoreData(phone: string, p: Profile): (core: GlobalData)
    ensures core.Keys == CoreKeys
    ensures core[CallerPhone] == Str(phone)
    ensures Truthy(core[Global.OwnerName])
    ensures Truthy(p.ownerName) ==> core[Global.OwnerName] == p.ownerName
    ensures !Truthy(p.ownerName) ==> core[Global.OwnerName] == Str("Unknown")
    ensures core[Global.CandidateEmail] == p.candidateEmail
    ensures Truthy(core[Global.CandidateAddress]) <==> Truthy(p.addressNormalized) || Truthy(p.candidateAddress)
    ensures core[Global.CandidateAddress] == Or(p.addressNormalized, p.candidateAddress)
    ensures core[Global.LineType] == Or(p.lineType, Str("unknown"))
    ensures core[Global.SmsEligible] == Bool(p.smsEligible)
    ensures core[Global.RecordSource] == Str(p.source.Name())
  {
    map[CallerPhone := Str(phone), Global.OwnerName := Or(p.ownerName, Str("Unknown")),
        Global.CandidateEmail := p.candidateEmail,
        Global.CandidateAddress := Or(DisplayAddress(p), p.candidateAddress),
        Global.LineType := Or(p.lineType, Str("unknown")), Global.SmsEligible := Bool(p.smsEligible),
        Global.RecordSource := Str(p.source.Name())]
  }

  /** The global data for the call: the core fields, then the extras, which never overwrite one of them. */
  function GlobalDataOf(phone: string, p: Profile): (gd: GlobalData)
    requires forall k :: k in p.extras ==> !IsCore(k)
    ensures gd.Keys == CoreKeys + p.extras.Keys
    ensures forall k :: k in CoreKeys ==> gd[k] == CoreData(phone, p)[k]
    ensures forall k :: k in p.extras ==> gd[k] == p.extras[k]
  {
    var core := CoreData(phone, p);
    assert forall k :: k in core ==> IsCore(k) && k !in p.extras;
    core + p.extras
  }

  /** One of the seven keys every call's global data has. */
  predicate IsCore(k: Global) {
    k.CallerPhone? || k.OwnerName? || k.CandidateEmail? || k.CandidateAddress? || k.LineType?
    || k.SmsEligible? || k.RecordSource?
  }

  /** No key the lookup extras may set is a core key. */
  lemma ExtrasAreNotCore()
    ensures forall k :: k in ExtraKeys ==> !IsCore(k)
  {
  }

  /** The seven keys every call's global data has. */
  const CoreKeys: set<Global> :=
    {CallerPhone, Global.OwnerName, Global.CandidateEmail, Global.CandidateAddress, Global.LineType,
     Global.SmsEligible, Global.RecordSource}

  /** The greeting: welcome back a returning caller with a name, greet a researched one, or ask who is calling. */
  function OpeningOf(p: Profile): (o: Opening)
    ensures o == WelcomeBack <==> p.source == Returning && Truthy(p.ownerName)
    ensures o == UnknownCaller <==> !Truthy(p.ownerName)
  {
    if p.source == Returning && Truthy(p.ownerName) then WelcomeBack
    else if Truthy(p.ownerName) then KnownCaller
    else UnknownCaller
  }

  /** Whether the call keeps `confirm_address`, and whether it keeps `email_confirm`. */
  function HasAddress(p: Profile): bool { Truthy(Or(DisplayAddress(p), p.candidateAddress)) }
  function HasEmail(p: Profile): bool { Truthy(p.candidateEmail) }

  // ------------------------------------------------------------ properties

  /** No record means "new", a fresh record "returning", a stale one "refreshed". */
  lemma PathChoice(caller: Option<CallerRow>, lookup: Option<Lookup>, rebuild: Value -> Option<Lookup>,
                   enrich: Value -> Enriched, now: int)
    ensures var p := ProfileOf(caller, lookup, rebuild, enrich, now);
      && (p.source == New <==> caller.None?)
      && (p.source == Returning <==> caller.Some? && !IsStale(caller.value, now, DefaultTtlDays))
      && (p.source == Refreshed <==> caller.Some? && IsStale(caller.value, now, DefaultTtlDays))
  {
  }

  /** A fresh record never consults the identity lookup: its answer makes no difference. */
  lemma FreshIgnoresLookup(c: CallerRow, l1: Option<Lookup>, l2: Option<Lookup>, rebuild: Value -> Option<Lookup>,
                           enrich: Value -> Enriched, now: int)
    requires !IsStale(c, now, DefaultTtlDays)
    ensures ProfileOf(Some(c), l1, rebuild, enrich, now) == ProfileOf(Some(c), l2, rebuild, enrich, now)
  {
  }

  /** A stale record whose lookup fails is used exactly as stored, and nothing is written back. */
  lemma StaleFallback(c: CallerRow, rebuild: Value -> Option<Lookup>, enrich: Value -> Enriched, now: int)
    requires IsStale(c, now, DefaultTtlDays)
    ensures var p := ProfileOf(Some(c), None, rebuild, enrich, now);
      && p.ownerName == Cell(c, Column.OwnerName) && p.addressNormalized == Cell(c, Column.AddressNormalized)
      && p.candidateEmail == Or(Cell(c, ValidatedEmail), Cell(c, Column.CandidateEmail))
      && p.source == Refreshed && p.upsert.None? && p.extras == map[]
  {
  }

  /** On a stale record the lookup's non-empty answers win over the stored values. */
  lemma StaleLookupWins(c: CallerRow, t: Lookup, rebuild: Value -> Option<Lookup>, enrich: Value -> Enriched, now: int)
    requires IsStale(c, now, DefaultTtlDays)
    ensures var p := ProfileOf(Some(c), Some(t), rebuild, enrich, now);
      && (Truthy(t.ownerName) ==> p.ownerName == t.ownerName)
      && (Truthy(t.candidateEmail) ==> p.candidateEmail == t.candidateEmail)
      && (Truthy(t.candidateAddress) ==> p.candidateAddress == t.candidateAddress)
      && (!Truthy(t.ownerName) ==> p.ownerName == Cell(c, Column.OwnerName))
      && p.upsert.Some? && p.source == Refreshed
  {
  }

  /** On every path the global data's address and email decide exactly which steps survive. */
  lemma PlanMatchesGlobalData(phone: string, p: Profile)
    requires forall k :: k in p.extras ==> !IsCore(k)
    ensures HasAddress(p) <==> Truthy(Get(GlobalDataOf(phone, p), Global.CandidateAddress))
    ensures HasEmail(p) <==> Truthy(Get(GlobalDataOf(phone, p), Global.CandidateEmail))
  {
  }

  /**
   * The geocode backfill happens once: the row it leaves has a latitude, so
   * the next fresh call reads it without geocoding again, and it does not
   * touch `last_enriched_at`, so the record is no staler than before.
   */
  lemma BackfillOnce(callers: map<string, CallerRow>, phone: string, rebuild: Value -> Option<Lookup>,
                     enrich: Value -> Enriched, now: int)
    requires CallersWellFormed(callers) && phone in callers
    requires Recalled(callers[phone], rebuild, enrich).upsert.Some?
    ensures var after := Upserted(callers, phone, Recalled(callers[phone], rebuild, enrich).upsert.value, now)[phone];
      && Truthy(Cell(after, GeocodeLat))
      && LastEnriched(after) == LastEnriched(callers[phone])
      && Recalled(after, rebuild, enrich).upsert.None?
  {
    var c := callers[phone];
    var e := enrich(Cell(c, Column.CandidateAddress));
    BackfilledRow(c, e, now);
  }

  /** Merging the backfill fields into a row leaves a latitude and the old `last_enriched_at`. */
  lemma BackfilledRow(c: CallerRow, e: Enriched, now: int)
    requires Truthy(e.lat)
    ensures Truthy(Cell(MergedRow(c, BackfillFields(e), now), GeocodeLat))
    ensures LastEnriched(MergedRow(c, BackfillFields(e), now)) == LastEnriched(c)
  {
    var fields := BackfillFields(e);
    var merged := MergedRow(c, fields, now);
    assert GeocodeLat.Accepted() && GeocodeLat in fields && fields[GeocodeLat] == e.lat != Null;
    assert Cell(merged, GeocodeLat) == Stored(e.lat);
    assert LastEnrichedAt != UpdatedAt && LastEnrichedAt !in fields;
  }
}
