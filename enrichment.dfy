/**
 * The agent's enrichment helpers (veronica.py): `_enrich_address`, which
 * geocodes an address and then has the postal validator check the geocoded
 * form, and `_extract_trestle_extras`, which picks the identity lookup's
 * fields worth handing to the conversation.  The geocoder and the postal
 * validator are parameters: a function from what the agent sends them to
 * their parsed answer, `None` when the call fails or is not configured.
 */
module Enrichment {

  import opened Wrappers
  import opened Strings
  import opened Values
  import opened ApiClients
  import opened Globals

  // ------------------------------------------------------------ address

  /** What `_enrich_address` passes to `smarty_validate_address`. */
  datatype PostalQuery = PostalQuery(street: string, city: string, state: string, zipcode: Option<string>)

  /** `[p.strip() for p in formatted.split(",")]`. */
  function Components(formatted: string): (parts: seq<string>)
    ensures |parts| == |SplitOn(formatted, ',')|
    ensures forall i :: 0 <= i < |parts| ==> parts[i] == Strip(SplitOn(formatted, ',')[i])
  {
    var raw := SplitOn(formatted, ',');
    seq(|raw|, i requires 0 <= i < |raw| => Strip(raw[i]))
  }

  /** The words of the third component once "USA" is taken out of it: the state, then the zip code. */
  function StateWords(third: string): (words: seq<string>)
    ensures forall k :: 0 <= k < |words| ==> words[k] != "" && NoSpace(words[k])
  {
    SplitWords(Strip(Replace(third, "USA", "")))
  }

  /**
   * The split of a geocoded address such as "123 Main St, City, ST 12345, USA":
   * street, city, state and zip code, or `None` when it has fewer than three parts.
   */
  function PostalQueryOf(formatted: string): (q: Option<PostalQuery>)
    ensures q.Some? <==> |SplitOn(formatted, ',')| >= 3
    ensures q.Some? ==>
      var parts := Components(formatted);
      var words := StateWords(parts[2]);
      && q.value.street == parts[0] && q.value.city == parts[1]
      && (q.value.state == "" <==> words == [])
      && (words != [] ==> q.value.state == words[0])
      && (q.value.zipcode.Some? <==> |words| >= 2)
      && (q.value.zipcode.Some? ==> q.value.zipcode.value == words[1])
      && NoSpace(q.value.state)
  {
    var parts := Components(formatted);
    if |parts| < 3 then None
    else
      var words := StateWords(parts[2]);
      var state := if words != [] then words[0] else "";
      var zipcode := if |words| > 1 then Some(words[1]) else None;
      Some(PostalQuery(parts[0], parts[1], state, zipcode))
  }

  /** The five values `_enrich_address` returns. */
  datatype Enriched = Enriched(normalized: Value, lat: Value, lng: Value, confidence: Value, dpv: Value)

  /** All five `None`: no address, or the geocoder had nothing. */
  const NotEnriched: Enriched := Enriched(Null, Null, Null, Null, Null)

  /**
   * The postal validator's answer for a geocoder result, or `None` when the
   * formatted address does not split into a query or the validator fails.
   */
  function PostalCheck(g: Geocode, validator: PostalQuery -> Option<PostalResult>): (r: Option<PostalResult>)
    ensures r.Some? ==> g.formatted.Str? && PostalQueryOf(g.formatted.s).Some?
  {
    if !g.formatted.Str? then None
    else match PostalQueryOf(g.formatted.s)
      case None => None
      case Some(q) => validator(q)
  }

  /** `_enrich_address`: geocode, then postal validation of the geocoded form. */
  function EnrichAddress(address: Value, geocoder: Value -> Option<Geocode>,
                         validator: PostalQuery -> Option<PostalResult>): (e: Enriched)
    ensures !Truthy(address) || geocoder(address).None? ==> e == NotEnriched
    ensures Truthy(address) && geocoder(address).Some? ==>
      var g := geocoder(address).value;
      var postal := PostalCheck(g, validator);
      && e.lat == g.lat && e.lng == g.lng && e.confidence == g.confidence
      && (postal.None? ==> e.normalized == g.formatted && e.dpv == Null)
      && (postal.Some? ==> e.dpv == postal.value.dpvMatchCode)
      && (postal.Some? && Truthy(postal.value.normalized) ==> e.normalized == postal.value.normalized)
      && (postal.Some? && !Truthy(postal.value.normalized) ==> e.normalized == g.formatted)
  {
    if !Truthy(address) then NotEnriched
    else match geocoder(address)
      case None => NotEnriched
      case Some(g) =>
        var enriched := Enriched(g.formatted, g.lat, g.lng, g.confidence, Null);
        match PostalCheck(g, validator)
        case None => enriched
        case Some(postal) =>
          var enriched := enriched.(dpv := postal.dpvMatchCode);
          if Truthy(postal.normalized) then enriched.(normalized := postal.normalized) else enriched
  }

  /** When the geocoded address has fewer than three comma-separated parts, the postal validator is never consulted. */
  lemma EnrichSkipsValidator(address: Value, geocoder: Value -> Option<Geocode>,
                             v1: PostalQuery -> Option<PostalResult>, v2: PostalQuery -> Option<PostalResult>)
    requires geocoder(address).Some? && geocoder(address).value.formatted.Str?
    requires |SplitOn(geocoder(address).value.formatted.s, ',')| < 3
    ensures EnrichAddress(address, geocoder, v1) == EnrichAddress(address, geocoder, v2)
  {
    var g := geocoder(address).value;
    assert PostalCheck(g, v1).None? && PostalCheck(g, v2).None?;
  }

  /** The result has coordinates only if the geocoder answered, and then they are the geocoder's unchanged. */
  lemma EnrichCoordinates(address: Value, geocoder: Value -> Option<Geocode>,
                          validator: PostalQuery -> Option<PostalResult>)
    ensures EnrichAddress(address, geocoder, validator).dpv != Null ==> Truthy(address) && geocoder(address).Some?
    ensures Truthy(address) && geocoder(address).Some? ==>
      EnrichAddress(address, geocoder, validator).lat == geocoder(address).value.lat
  {
  }

  // ------------------------------------------------------- lookup extras

  /** The keys `_extract_trestle_extras` may set. */
  const ExtraKeys: set<Global> := {
    Firstname, Lastname, Middlename, AlternateNames, AgeRange, Gender, OwnerType,
    Carrier, IsPrepaid, IsCommercial, ConfidenceScore, AllEmails, AllAddresses,
    AlternatePhones, OwnerCount, AllOwnersSummary}

  function When(cond: bool, v: Value): Option<Value> {
    if cond then Some(v) else None
  }

  /**
   * The one conditional insert of `_extract_trestle_extras` for `key`: the
   * value it stores, or `None` when its condition fails (a falsy field, a
   * `None` flag, a single owner).
   */
  function Extra(t: Lookup, key: Global): Option<Value> {
    match key
    case Firstname => When(Truthy(t.firstname), t.firstname)
    case Lastname => When(Truthy(t.lastname), t.lastname)
    case Middlename => When(Truthy(t.middlename), t.middlename)
    case AlternateNames => When(Truthy(t.alternateNames), t.alternateNames)
    case AgeRange => When(Truthy(t.ageRange), t.ageRange)
    case Gender => When(Truthy(t.gender), t.gender)
    case OwnerType => When(Truthy(t.ownerType), t.ownerType)
    case Carrier => When(Truthy(t.carrier), t.carrier)
    case IsPrepaid => When(t.isPrepaid != Null, t.isPrepaid)
    case IsCommercial => When(t.isCommercial != Null, t.isCommercial)
    case ConfidenceScore => When(t.confidenceScore != Null, t.confidenceScore)
    case AllEmails => When(t.allEmails != [], List(t.allEmails))
    case AllAddresses => When(t.allAddresses != [], List(t.allAddresses))
    case AlternatePhones => When(t.alternatePhones != [], List(t.alternatePhones))
    case OwnerCount => When(t.ownerCount > 1, Num(t.ownerCount))
    case AllOwnersSummary => When(t.ownerCount > 1, List(t.allOwnersSummary))
    case _ => None
  }

  /**
   * `_extract_trestle_extras`: every key whose conditional insert fires, with
   * its value.  The keys are distinct, so the order of the inserts does not
   * change the result.
   */
  function TrestleExtras(lookup: Option<Lookup>): (extras: GlobalData)
    ensures lookup.None? ==> extras == map[]
  {
    match lookup
    case None => map[]
    case Some(t) => map k | k in ExtraKeys && Extra(t, k).Some? :: Extra(t, k).value
  }

  /** `key` is in the extras exactly when `present`, and then holds `v`. */
  predicate Carries(extras: GlobalData, key: Global, v: Value, present: bool) {
    (key in extras <==> present) && (present ==> extras[key] == v)
  }

  /** The names and demographics are carried when truthy. */
  lemma ExtrasOwner(t: Lookup)
    ensures var extras := TrestleExtras(Some(t));
      && Carries(extras, Firstname, t.firstname, Truthy(t.firstname))
      && Carries(extras, Lastname, t.lastname, Truthy(t.lastname))
      && Carries(extras, Middlename, t.middlename, Truthy(t.middlename))
      && Carries(extras, AlternateNames, t.alternateNames, Truthy(t.alternateNames))
      && Carries(extras, AgeRange, t.ageRange, Truthy(t.ageRange))
      && Carries(extras, Gender, t.gender, Truthy(t.gender))
      && Carries(extras, OwnerType, t.ownerType, Truthy(t.ownerType))
  {
  }

  /** The carrier is carried when truthy; the two flags and the confidence score whenever they are not `None`. */
  lemma ExtrasPhone(t: Lookup)
    ensures var extras := TrestleExtras(Some(t));
      && Carries(extras, Carrier, t.carrier, Truthy(t.carrier))
      && Carries(extras, IsPrepaid, t.isPrepaid, t.isPrepaid != Null)
      && Carries(extras, IsCommercial, t.isCommercial, t.isCommercial != Null)
      && Carries(extras, ConfidenceScore, t.confidenceScore, t.confidenceScore != Null)
  {
  }

  /**
   * The email, address and phone lists are carried when not empty; the owner
   * count and the owner summaries only when there is more than one owner.
   */
  lemma ExtrasContacts(t: Lookup)
    ensures var extras := TrestleExtras(Some(t));
      && Carries(extras, AllEmails, List(t.allEmails), t.allEmails != [])
      && Carries(extras, AllAddresses, List(t.allAddresses), t.allAddresses != [])
      && Carries(extras, AlternatePhones, List(t.alternatePhones), t.alternatePhones != [])
      && Carries(extras, OwnerCount, Num(t.ownerCount), t.ownerCount > 1)
      && Carries(extras, AllOwnersSummary, List(t.allOwnersSummary), t.ownerCount > 1)
  {
  }

  /** Every key the extras carry is one of `ExtraKeys`, whatever the lookup held. */
  lemma ExtrasKeys(lookup: Option<Lookup>)
    ensures TrestleExtras(lookup).Keys <= ExtraKeys
  {
  }
}
