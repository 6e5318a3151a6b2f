/**
 * What the agent makes of the replies of its lookup services (api_clients.py):
 * the identity lookup's owner, email and address extraction, the email
 * verifier's classification, the geocoder's top result, the postal
 * validator's normalized line and the mail service's success test.  The
 * HTTP exchange itself is not modelled: each function starts from the
 * decoded JSON reply.
 */
module ApiClients {

  import opened Wrappers
  import opened Strings
  import opened Values

  /** `(d.get(key) or "").lower()`. */
  function LowerField(d: Value, key: string): string {
    Lower(Text(Or(Field(d, key, Null), Str(""))))
  }

  function FirstOr(xs: seq<Value>, default: Value): Value {
    if xs == [] then default else xs[0]
  }

  // ------------------------------------------------------------ addresses

  /** The five address components, in the order they are joined. */
  const AddressKeys: seq<string> :=
    ["street_line_1", "street_line_2", "city", "state_code", "postal_code"]

  /** `addr.get(key, "")`. */
  function Component(m: map<string, Value>, key: string): Value {
    GetOr(m, key, Str(""))
  }

  /** The text of each component of `keys` whose value is truthy, in the order of `keys`. */
  function PresentParts(m: map<string, Value>, keys: seq<string>): (parts: seq<string>)
    ensures |parts| <= |keys|
    ensures parts == [] <==> forall i :: 0 <= i < |keys| ==> !Truthy(Component(m, keys[i]))
  {
    if keys == [] then []
    else
      var v := Component(m, keys[0]);
      var rest := PresentParts(m, keys[1..]);
      assert forall i :: 1 <= i < |keys| ==> keys[i] == keys[1..][i - 1];
      if Truthy(v) then [Text(v)] + rest else rest
  }

  /** Every part is the text of a truthy component. */
  lemma {:induction false} PresentPartsSound(m: map<string, Value>, keys: seq<string>, j: int)
    requires 0 <= j < |PresentParts(m, keys)|
    ensures exists i :: 0 <= i < |keys| && Truthy(Component(m, keys[i])) && PresentParts(m, keys)[j] == Text(Component(m, keys[i]))
    decreases |keys|
  {
    var v := Component(m, keys[0]);
    var rest := PresentParts(m, keys[1..]);
    if Truthy(v) && j == 0 {
      assert PresentParts(m, keys)[0] == Text(Component(m, keys[0]));
    } else {
      var jr := if Truthy(v) then j - 1 else j;
      assert PresentParts(m, keys)[j] == rest[jr];
      PresentPartsSound(m, keys[1..], jr);
      var i :| 0 <= i < |keys[1..]| && Truthy(Component(m, keys[1..][i])) && rest[jr] == Text(Component(m, keys[1..][i]));
      assert keys[1..][i] == keys[i + 1];
    }
  }

  /** The text of every truthy component is a part. */
  lemma {:induction false} PresentPartsComplete(m: map<string, Value>, keys: seq<string>, i: int)
    requires 0 <= i < |keys| && Truthy(Component(m, keys[i]))
    ensures Text(Component(m, keys[i])) in PresentParts(m, keys)
    decreases |keys|
  {
    if i > 0 {
      assert keys[1..][i - 1] == keys[i];
      PresentPartsComplete(m, keys[1..], i - 1);
    }
  }

  /** The parts of two key lists, one after the other, are the parts of their concatenation. */
  lemma {:induction false} PresentPartsAppend(m: map<string, Value>, a: seq<string>, b: seq<string>)
    ensures PresentParts(m, a + b) == PresentParts(m, a) + PresentParts(m, b)
    decreases |a|
  {
    if a == [] {
      assert a + b == b;
    } else {
      assert (a + b)[1..] == a[1..] + b;
      PresentPartsAppend(m, a[1..], b);
    }
  }

  /** A join is empty only if every part is. */
  lemma {:induction false} JoinEmpty(sep: string, parts: seq<string>, i: int)
    requires sep != "" && 0 <= i < |parts| && parts[i] != ""
    ensures Join(sep, parts) != ""
    decreases |parts|
  {
    if |parts| > 1 && i > 0 {
      JoinEmpty(sep, parts[1..], i - 1);
    }
  }

  /**
   * `_format_address`: for a dict, the truthy components joined with ", "
   * (None when that is empty); for anything else, its text when truthy.
   */
  function FormatAddress(addr: Value): (r: Option<string>)
    ensures r.Some? ==> r.value != ""
    ensures !addr.Dict? ==> (r.Some? <==> Truthy(addr) && Text(addr) != "")
    ensures addr.Dict? && r.Some? ==> exists i :: 0 <= i < 5 && Truthy(Component(addr.fields, AddressKeys[i]))
  {
    if !addr.Dict? then
      if Truthy(addr) && Text(addr) != "" then Some(Text(addr)) else None
    else
      var parts := PresentParts(addr.fields, AddressKeys);
      var joined := Join(", ", parts);
      if joined == "" then None else Some(joined)
  }

  /**
   * `_format_address` of a dict with a component whose text is not empty is
   * the truthy components' texts joined with ", ", in order.
   */
  lemma FormatAddressJoined(m: map<string, Value>, i: int)
    requires 0 <= i < 5 && Truthy(Component(m, AddressKeys[i])) && Text(Component(m, AddressKeys[i])) != ""
    ensures FormatAddress(Dict(m)) == Some(Join(", ", PresentParts(m, AddressKeys)))
  {
    var parts := PresentParts(m, AddressKeys);
    PresentPartsComplete(m, AddressKeys, i);
    var j :| 0 <= j < |parts| && parts[j] == Text(Component(m, AddressKeys[i]));
    JoinEmpty(", ", parts, j);
  }

  /** A dict whose five components are all falsy or missing gives no address. */
  lemma FormatAddressNothing(m: map<string, Value>)
    requires forall i :: 0 <= i < 5 ==> !Truthy(Component(m, AddressKeys[i]))
    ensures FormatAddress(Dict(m)) == None
  {
    assert PresentParts(m, AddressKeys) == [];
  }

  // --------------------------------------------------------------- emails

  /** The address one element of an email list contributes, if any. */
  function EmailOf(e: Value): (r: seq<Value>)
    ensures |r| <= 1 && forall k :: 0 <= k < |r| ==> Truthy(r[k])
    ensures e.Str? ==> (r == [e] <==> e.s != "") && (r == [] <==> e.s == "")
    ensures e.Dict? && Truthy(Get(e.fields, "email_address")) ==> r == [e.fields["email_address"]]
    ensures e.Dict? && !Truthy(Get(e.fields, "email_address")) ==>
      if Truthy(Get(e.fields, "address")) then r == [e.fields["address"]] else r == []
    ensures !e.Str? && !e.Dict? ==> r == []
  {
    if e.Dict? then
      var a := Or(Get(e.fields, "email_address"), Get(e.fields, "address"));
      if Truthy(a) then [a] else []
    else if e.Str? && e.s != "" then [e]
    else []
  }

  /** The addresses a list of email entries contributes, in order. */
  function EmailsIn(xs: seq<Value>): (r: seq<Value>)
    ensures |r| <= |xs|
    ensures forall k :: 0 <= k < |r| ==> Truthy(r[k])
  {
    if xs == [] then [] else EmailsIn(xs[..|xs| - 1]) + EmailOf(xs[|xs| - 1])
  }

  /** The meaning of `_parse_emails`: a non-empty string alone, the usable entries of a list, otherwise nothing. */
  function ParsedEmails(emails: Value): (r: seq<Value>)
    ensures forall k :: 0 <= k < |r| ==> Truthy(r[k])
    ensures emails.Str? && emails.s != "" ==> r == [emails]
    ensures !emails.Str? && !emails.List? ==> r == []
  {
    if emails.Str? && emails.s != "" then [emails]
    else if emails.List? then EmailsIn(emails.items)
    else []
  }

  /** `_parse_emails`: the loop that appends each usable entry. */
  method ParseEmails(emails: Value) returns (result: seq<Value>)
    ensures result == ParsedEmails(emails)
  {
    if emails.Str? && emails.s != "" {
      return [emails];
    }
    result := [];
    if emails.List? {
      var xs := emails.items;
      for i := 0 to |xs|
        invariant result == EmailsIn(xs[..i])
      {
        var e := xs[i];
        if e.Dict? {
          var addr := Or(Get(e.fields, "email_address"), Get(e.fields, "address"));
          if Truthy(addr) {
            result := result + [addr];
          }
        } else if e.Str? && e.s != "" {
          result := result + [e];
        }
        assert xs[..i + 1][..i] == xs[..i];
      }
      assert xs[..|xs|] == xs;
    }
  }

  /** A list of non-empty strings is kept as it is, in order. */
  lemma {:induction false} EmailsOfStrings(xs: seq<Value>)
    requires forall k :: 0 <= k < |xs| ==> xs[k].Str? && xs[k].s != ""
    ensures EmailsIn(xs) == xs
    decreases |xs|
  {
    if xs != [] {
      EmailsOfStrings(xs[..|xs| - 1]);
      assert xs[..|xs| - 1] + [xs[|xs| - 1]] == xs;
    }
  }

  /** Entries that carry no usable address are dropped without disturbing the others. */
  lemma {:induction false} EmailsInAppend(xs: seq<Value>, ys: seq<Value>)
    ensures EmailsIn(xs + ys) == EmailsIn(xs) + EmailsIn(ys)
    decreases |ys|
  {
    if ys == [] {
      assert xs + ys == xs;
    } else {
      var last := ys[|ys| - 1];
      assert (xs + ys)[..|xs + ys| - 1] == xs + ys[..|ys| - 1];
      EmailsInAppend(xs, ys[..|ys| - 1]);
    }
  }

  // ------------------------------------------------------ identity lookup

  /** The owner list of a lookup reply (`data.get("owners", [])`). */
  function Owners(data: Value): seq<Value> {
    Items(Field(data, "owners", List([])))
  }

  /** The entry `all_addresses` gets for one current address, if it formats to something. */
  function AddressEntry(addr: Value): (r: Option<Value>)
    ensures r.Some? ==> r.value.Dict? && "formatted" in r.value.fields
    ensures r.Some? <==> FormatAddress(addr).Some?
    ensures r.Some? ==> r.value.fields["formatted"] == Str(FormatAddress(addr).value)
  {
    match FormatAddress(addr)
    case None => None
    case Some(formatted) =>
      var entry := map["formatted" := Str(formatted)];
      var latLong := if addr.Dict? then Field(addr, "lat_long", Dict(map[])) else Dict(map[]);
      var entry := if Truthy(latLong) then
          entry["lat" := Field(latLong, "latitude", Null)]
               ["lng" := Field(latLong, "longitude", Null)]
               ["accuracy" := Field(latLong, "accuracy", Null)]
        else entry;
      var entry := entry["delivery_point" := if addr.Dict? then Field(addr, "delivery_point", Null) else Null]
                        ["link_date" := if addr.Dict? then Field(addr, "link_to_person_start_date", Null) else Null];
      Some(Dict(entry))
  }

  function AddressEntries(addrs: seq<Value>): (r: seq<Value>)
    ensures |r| <= |addrs|
    ensures forall k :: 0 <= k < |r| ==> r[k].Dict? && "formatted" in r[k].fields
  {
    if addrs == [] then []
    else
      var e := AddressEntry(addrs[|addrs| - 1]);
      AddressEntries(addrs[..|addrs| - 1]) + (if e.Some? then [e.value] else [])
  }

  /** The first current address that formats is the first entry. */
  lemma {:induction false} FirstAddressEntry(addrs: seq<Value>, i: int)
    requires 0 <= i < |addrs| && AddressEntry(addrs[i]).Some?
    requires forall j :: 0 <= j < i ==> AddressEntry(addrs[j]).None?
    ensures AddressEntries(addrs) != [] && AddressEntries(addrs)[0] == AddressEntry(addrs[i]).value
    decreases |addrs|
  {
    if i < |addrs| - 1 {
      FirstAddressEntry(addrs[..|addrs| - 1], i);
    } else {
      NoAddressEntries(addrs[..i]);
    }
  }

  lemma {:induction false} NoAddressEntries(addrs: seq<Value>)
    requires forall j :: 0 <= j < |addrs| ==> AddressEntry(addrs[j]).None?
    ensures AddressEntries(addrs) == []
    decreases |addrs|
  {
    if addrs != [] {
      NoAddressEntries(addrs[..|addrs| - 1]);
    }
  }

  /** One `alternate_phones` entry. */
  function AltPhone(p: map<string, Value>): Value {
    var kind := Text(Or(Or(Get(p, "lineType"), Get(p, "line_type")), Str("")));
    Dict(map["number" := Or(Get(p, "phoneNumber"), Get(p, "phone_number")), "type" := Str(Lower(kind))])
  }

  /**
   * An entry holds exactly the number (`phoneNumber`, else `phone_number`) and
   * the line type lower-cased, "" when the phone has none.
   */
  lemma AltPhoneFields(p: map<string, Value>)
    ensures var entry := AltPhone(p);
      && entry.Dict? && entry.fields.Keys == {"number", "type"}
      && (Truthy(Get(p, "phoneNumber")) ==> entry.fields["number"] == p["phoneNumber"])
      && (!Truthy(Get(p, "phoneNumber")) ==> entry.fields["number"] == Get(p, "phone_number"))
      && entry.fields["type"].Str? && NoCapitals(entry.fields["type"].s)
      && (!Truthy(Get(p, "lineType")) && !Truthy(Get(p, "line_type")) ==> entry.fields["type"] == Str(""))
  {
    LowerNoCapitals(Text(Or(Or(Get(p, "lineType"), Get(p, "line_type")), Str(""))));
  }

  /** The alternate phones: one entry per dict in the list, in order; other elements are dropped. */
  function AltPhones(ps: seq<Value>): (r: seq<Value>)
    ensures |r| <= |ps|
  {
    if ps == [] then []
    else
      var p := ps[0];
      var rest := AltPhones(ps[1..]);
      if p.Dict? then [AltPhone(p.fields)] + rest else rest
  }

  /** A list of dicts gives one entry per phone, entry i for phone i. */
  lemma {:induction false} AltPhonesOfDicts(ps: seq<Value>)
    requires forall i :: 0 <= i < |ps| ==> ps[i].Dict?
    ensures |AltPhones(ps)| == |ps|
    ensures forall i :: 0 <= i < |ps| ==> AltPhones(ps)[i] == AltPhone(ps[i].fields)
    decreases |ps|
  {
    if ps != [] {
      var tail := ps[1..];
      assert forall i :: 0 <= i < |tail| ==> tail[i].Dict? by {
        forall i | 0 <= i < |tail| ensures tail[i].Dict? {
          assert tail[i] == ps[i + 1];
        }
      }
      AltPhonesOfDicts(tail);
      var rest := AltPhones(tail);
      var e := AltPhone(ps[0].fields);
      assert AltPhones(ps) == [e] + rest;
      forall i | 0 <= i < |ps| ensures AltPhones(ps)[i] == AltPhone(ps[i].fields) {
        if i > 0 {
          assert ([e] + rest)[i] == rest[i - 1];
          assert rest[i - 1] == AltPhone(tail[i - 1].fields);
          assert tail[i - 1] == ps[i];
        }
      }
    }
  }

  /** A list without dicts gives no entries. */
  lemma {:induction false} AltPhonesNone(ps: seq<Value>)
    requires forall i :: 0 <= i < |ps| ==> !ps[i].Dict?
    ensures AltPhones(ps) == []
    decreases |ps|
  {
    if ps != [] {
      assert forall i :: 0 <= i < |ps[1..]| ==> ps[1..][i] == ps[i + 1];
      AltPhonesNone(ps[1..]);
    }
  }

  /** Phones listed one after the other give their entries one after the other. */
  lemma {:induction false} AltPhonesAppend(xs: seq<Value>, ys: seq<Value>)
    ensures AltPhones(xs + ys) == AltPhones(xs) + AltPhones(ys)
    decreases |xs|
  {
    if xs == [] {
      assert xs + ys == ys;
    } else {
      assert (xs + ys)[1..] == xs[1..] + ys;
      AltPhonesAppend(xs[1..], ys);
    }
  }

  /** One `all_owners_summary` entry. */
  function OwnerSummary(o: Value): Value {
    Dict(map[
      "name" := Field(o, "name", Null),
      "confidence" := Field(o, "phone_to_name_confidence_score", Null),
      "type" := Field(o, "type", Null),
      "age_range" := Field(o, "age_range", Null),
      "email_count" := Num(|ParsedEmails(Field(o, "emails", List([])))|),
      "address_count" := Num(|Items(Field(o, "current_addresses", List([])))|)])
  }

  /** The result dict of `trestle_reverse_phone`, one field per key. */
  datatype Lookup = Lookup(
    isValid: Value, lineType: string, carrier: Value, isPrepaid: Value, isCommercial: Value,
    smsEligible: bool,
    ownerName: Value, firstname: Value, lastname: Value, middlename: Value,
    alternateNames: Value, ageRange: Value, gender: Value, ownerType: Value,
    confidenceScore: Value, linkToPhoneStartDate: Value,
    candidateEmail: Value, allEmails: seq<Value>,
    candidateAddress: Value, allAddresses: seq<Value>, alternatePhones: seq<Value>,
    trestleLat: Value, trestleLng: Value, trestleAccuracy: Value,
    ownerCount: nat, allOwnersSummary: seq<Value>,
    rawResponse: Value)

  /** The owner and contact fields are all unset. */
  predicate NoOwnerData(r: Lookup) {
    && r.ownerName == Null && r.firstname == Null && r.lastname == Null && r.middlename == Null
    && r.alternateNames == List([]) && r.ageRange == Null && r.gender == Null && r.ownerType == Null
    && r.confidenceScore == Null && r.linkToPhoneStartDate == Null
    && r.candidateEmail == Null && r.allEmails == [] && r.candidateAddress == Null && r.allAddresses == []
    && r.alternatePhones == [] && r.trestleLat == Null && r.trestleLng == Null && r.trestleAccuracy == Null
    && r.allOwnersSummary == []
  }

  /** The loop that collects `all_addresses`. */
  method AddressList(addresses: seq<Value>) returns (allAddrs: seq<Value>)
    ensures allAddrs == AddressEntries(addresses)
  {
    allAddrs := [];
    for i := 0 to |addresses|
      invariant allAddrs == AddressEntries(addresses[..i])
    {
      var entry := AddressEntry(addresses[i]);
      if entry.Some? {
        allAddrs := allAddrs + [entry.value];
      }
      assert addresses[..i + 1][..i] == addresses[..i];
    }
    assert addresses[..|addresses|] == addresses;
  }

  /** The loop that appends one `all_owners_summary` entry per owner. */
  method OwnerSummaries(owners: seq<Value>) returns (summaries: seq<Value>)
    ensures |summaries| == |owners|
    ensures forall i :: 0 <= i < |owners| ==> summaries[i] == OwnerSummary(owners[i])
  {
    summaries := [];
    for i := 0 to |owners|
      invariant |summaries| == i
      invariant forall k :: 0 <= k < i ==> summaries[k] == OwnerSummary(owners[k])
    {
      var o := owners[i];
      var emails := ParseEmails(Field(o, "emails", List([])));
      summaries := summaries + [Dict(map[
        "name" := Field(o, "name", Null),
        "confidence" := Field(o, "phone_to_name_confidence_score", Null),
        "type" := Field(o, "type", Null),
        "age_range" := Field(o, "age_range", Null),
        "email_count" := Num(|emails|),
        "address_count" := Num(|Items(Field(o, "current_addresses", List([])))|)])];
    }
  }

  /**
   * The parsing half of `trestle_reverse_phone`: the result built field by
   * field from the decoded reply `data`.
   */
  method TrestleReversePhone(data: Value) returns (result: Lookup)
    ensures result.lineType == LowerField(data, "line_type")
    ensures result.smsEligible <==> LowerField(data, "line_type") == "mobile"
    ensures result.ownerCount == |Owners(data)|
    ensures result.rawResponse == data
    ensures result.isValid == Field(data, "is_valid", Null) && result.carrier == Field(data, "carrier", Null)
    ensures result.isPrepaid == Field(data, "is_prepaid", Null) && result.isCommercial == Field(data, "is_commercial", Null)
    ensures Owners(data) == [] ==> NoOwnerData(result)
    ensures Owners(data) != [] ==>
      var owner := Owners(data)[0];
      var emails := ParsedEmails(Field(owner, "emails", List([])));
      var entries := AddressEntries(Items(Field(owner, "current_addresses", List([]))));
      && result.ownerName == Field(owner, "name", Null)
      && result.firstname == Field(owner, "firstname", Null) && result.lastname == Field(owner, "lastname", Null)
      && result.middlename == Field(owner, "middlename", Null)
      && result.alternateNames == Field(owner, "alternate_names", List([]))
      && result.ageRange == Field(owner, "age_range", Null) && result.gender == Field(owner, "gender", Null)
      && result.ownerType == Field(owner, "type", Null)
      && result.confidenceScore == Field(owner, "phone_to_name_confidence_score", Null)
      && result.linkToPhoneStartDate == Field(owner, "link_to_phone_start_date", Null)
      && result.allEmails == emails
      && result.candidateEmail == FirstOr(emails, Null)
      && result.allAddresses == entries
      && result.candidateAddress == (if entries == [] then Null else entries[0].fields["formatted"])
      && result.trestleLat == (if entries == [] then Null else Field(entries[0], "lat", Null))
      && result.trestleLng == (if entries == [] then Null else Field(entries[0], "lng", Null))
      && result.trestleAccuracy == (if entries == [] then Null else Field(entries[0], "accuracy", Null))
      && result.alternatePhones == AltPhones(Items(Field(owner, "alternate_phones", List([]))))
      && |result.allOwnersSummary| == |Owners(data)|
      && forall i :: 0 <= i < |Owners(data)| ==> result.allOwnersSummary[i] == OwnerSummary(Owners(data)[i])
  {
    var lineType := LowerField(data, "line_type");
    var owners := Owners(data);
    if owners == [] {
      result := Lookup(
        Field(data, "is_valid", Null), lineType, Field(data, "carrier", Null),
        Field(data, "is_prepaid", Null), Field(data, "is_commercial", Null),
        lineType == "mobile",
        Null, Null, Null, Null, List([]), Null, Null, Null, Null, Null,
        Null, [], Null, [], [],
        Null, Null, Null,
        0, [],
        data);
      return;
    }

    // primary owner: emails (the first is the candidate) and addresses that format
    var owner := owners[0];
    var allEmails := ParseEmails(Field(owner, "emails", List([])));
    var allAddrs := AddressList(Items(Field(owner, "current_addresses", List([]))));
    var candidateAddress, lat, lng, accuracy := Null, Null, Null, Null;
    if allAddrs != [] {
      var first := allAddrs[0];
      candidateAddress := first.fields["formatted"];
      lat, lng, accuracy := Field(first, "lat", Null), Field(first, "lng", Null), Field(first, "accuracy", Null);
    }

    // one summary per owner, in order
    var summaries := OwnerSummaries(owners);
    result := Lookup(
      Field(data, "is_valid", Null), lineType, Field(data, "carrier", Null),
      Field(data, "is_prepaid", Null), Field(data, "is_commercial", Null),
      lineType == "mobile",
      Field(owner, "name", Null), Field(owner, "firstname", Null), Field(owner, "lastname", Null),
      Field(owner, "middlename", Null), Field(owner, "alternate_names", List([])),
      Field(owner, "age_range", Null), Field(owner, "gender", Null), Field(owner, "type", Null),
      Field(owner, "phone_to_name_confidence_score", Null), Field(owner, "link_to_phone_start_date", Null),
      if allEmails != [] then allEmails[0] else Null, allEmails,
      candidateAddress, allAddrs,
      AltPhones(Items(Field(owner, "alternate_phones", List([])))),
      lat, lng, accuracy,
      |owners|, summaries,
      data);
  }

  // ------------------------------------------------------- email verifier

  /** The sub-statuses that make an address unusable whatever its status. */
  const RejectedSubStatuses: set<string> := {"disposable", "role_based", "toxic", "spam_trap"}

  datatype Verdict = Verdict(status: string, subStatus: string, isValid: bool, isInvalid: bool, raw: Value)

  /** The classification half of `zerobounce_validate`. */
  function ZeroBounceVerdict(data: Value): (r: Verdict)
    ensures r.status == LowerField(data, "status") && r.subStatus == LowerField(data, "sub_status")
    ensures r.isValid <==> r.status == "valid"
    ensures r.isInvalid <==> r.status == "invalid" || r.subStatus in RejectedSubStatuses
    ensures r.raw == data
  {
    var status := LowerField(data, "status");
    var subStatus := LowerField(data, "sub_status");
    Verdict(status, subStatus, status == "valid", status == "invalid" || subStatus in RejectedSubStatuses, data)
  }

  // ------------------------------------------------------------- geocoder

  datatype Geocode = Geocode(formatted: Value, lat: Value, lng: Value, confidence: Value, raw: Value)

  /** The parsing half of `geocode_address`: the top result, or None when there is none. */
  function GeocodeOf(data: Value): (r: Option<Geocode>)
    ensures r.None? <==> Items(Field(data, "results", List([]))) == []
    ensures r.Some? ==>
      var top := Items(Field(data, "results", List([])))[0];
      var geometry := Field(top, "geometry", Dict(map[]));
      var location := Field(geometry, "location", Dict(map[]));
      && r.value.raw == top
      && r.value.formatted == Field(top, "formatted_address", Null)
      && r.value.lat == Field(location, "lat", Null) && r.value.lng == Field(location, "lng", Null)
      && r.value.confidence == Field(geometry, "location_type", Str(""))
  {
    var results := Items(Field(data, "results", List([])));
    if results == [] then None
    else
      var top := results[0];
      var geometry := Field(top, "geometry", Dict(map[]));
      var location := Field(geometry, "location", Dict(map[]));
      Some(Geocode(Field(top, "formatted_address", Null), Field(location, "lat", Null),
                   Field(location, "lng", Null), Field(geometry, "location_type", Str("")), top))
  }

  // ------------------------------------------------------ postal validator

  datatype PostalResult = PostalResult(dpvMatchCode: Value, normalized: Value, components: Value, raw: Value)

  /** The parsing half of `smarty_validate_address`, over the decoded candidate list. */
  function PostalResultOf(data: seq<Value>): (r: PostalResult)
    ensures data == [] ==> r.dpvMatchCode == Str("N") && r.normalized == Null && r.raw == List([])
    ensures data != [] ==>
      var analysis := Field(data[0], "analysis", Dict(map[]));
      && (analysis.Dict? && "dpv_match_code" in analysis.fields ==> r.dpvMatchCode == analysis.fields["dpv_match_code"])
      && (!(analysis.Dict? && "dpv_match_code" in analysis.fields) ==> r.dpvMatchCode == Str("N"))
      && r.components == Field(data[0], "components", Dict(map[])) && r.raw == data[0]
    ensures data != [] ==>
      var line1 := Field(data[0], "delivery_line_1", Str(""));
      var last := Field(data[0], "last_line", Str(""));
      r.normalized == if Truthy(last) then Str(Text(line1) + ", " + Text(last)) else line1
  {
    if data == [] then PostalResult(Str("N"), Null, Null, List([]))
    else
      var top := data[0];
      var analysis := Field(top, "analysis", Dict(map[]));
      var components := Field(top, "components", Dict(map[]));
      var normalized := Field(top, "delivery_line_1", Str(""));
      var lastLine := Field(top, "last_line", Str(""));
      var normalized := if Truthy(lastLine) then Str(Text(normalized) + ", " + Text(lastLine)) else normalized;
      PostalResult(Field(analysis, "dpv_match_code", Str("N")), normalized, components, top)
  }

  // ---------------------------------------------------------- mail service

  /** How the mail service answered one send: a transport failure, or a decoded reply. */
  datatype MailReply = TransportError(message: string) | Replied(data: Value)

  datatype SendResult = SendResult(messageId: Value, success: bool, error: Value)

  /** Python's `x == 0` for the values a JSON reply can carry. */
  predicate IsZero(v: Value) {
    v == Num(0) || v == Bool(false)
  }

  /**
   * The classification half of `postmark_send`; `None` in and out means the
   * service is not configured and nothing was sent.
   */
  function SendResultOf(reply: Option<MailReply>): (r: Option<SendResult>)
    ensures r.None? <==> reply.None?
    ensures r.Some? && r.value.success ==> reply.value.Replied? && r.value.error == Null
    ensures r.Some? && !r.value.success ==> r.value.messageId == Null
    ensures reply.Some? && reply.value.TransportError? ==>
      r == Some(SendResult(Null, false, Str(reply.value.message)))
    ensures reply.Some? && reply.value.Replied? ==>
      var data := reply.value.data;
      && (r.value.success <==> IsZero(Field(data, "ErrorCode", Num(0))))
      && (r.value.success ==> r.value.messageId == Field(data, "MessageID", Null))
      && (!r.value.success ==> r.value.error == Field(data, "Message", Str("Unknown error")))
  {
    match reply
    case None => None
    case Some(TransportError(msg)) => Some(SendResult(Null, false, Str(msg)))
    case Some(Replied(data)) =>
      var messageId := Field(data, "MessageID", Null);
      var errorCode := Field(data, "ErrorCode", Num(0));
      if IsZero(errorCode) then Some(SendResult(messageId, true, Null))
      else Some(SendResult(Null, false, Field(data, "Message", Str("Unknown error"))))
  }
}
