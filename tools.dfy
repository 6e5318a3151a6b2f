/**
 * What each tool handler of `_define_tools` (veronica.py) decides, as a
 * function of the session state it loaded, the call's global data, the
 * tool arguments and what its collaborators answer.  A `Turn` records the
 * state it saves last, the consent row it logs, the caller fields it
 * upserts, where it sends mail and what it tells the platform (the next
 * step, the new global data, the text to read back).  `Agent` performs the
 * same steps against the store.
 */
module Tools {

  import opened Wrappers
  import opened Strings
  import opened Values
  import opened Readback
  import opened ApiClients
  import opened StateStore
  import opened Flow
  import opened Enrichment
  import opened Globals

  /** What the handler returns: `swml_change_step`, `update_global_data` and the read-back it asks the model to speak. */
  datatype Reply = Reply(next: Option<Step>, globalData: Option<GlobalData>, readback: Option<string>)

  /** One `log_consent` call. */
  datatype Consent = Consent(kind: ConsentType, given: bool)

  /** One handler invocation. */
  datatype Turn = Turn(
    saved: Option<Session>,
    consent: Option<Consent>,
    upsert: Option<map<Column, Value>>,
    sendTo: Option<Value>,
    reply: Reply)

  /** A turn that only routes. */
  function RouteOnly(next: Step): Turn {
    Turn(None, None, None, None, Reply(Some(next), None, None))
  }

  /** `global_data.get("caller_phone", "")`, as the text the store keys callers by. */
  function PhoneOf(gd: GlobalData): string {
    var v := GetOr(gd, Global.CallerPhone, Str(""));
    if v.Str? then v.s else ""
  }

  /** A retry counter's value: a number, or a flag counting as 1 or 0. */
  function Count(v: Value): int {
    match v
    case Num(n) => n
    case Bool(b) => if b then 1 else 0
    case _ => 0
  }

  /** `state.get(key, 0)`. */
  function Attempts(state: Session, key: Key): int {
    Count(GetOr(state, key, Num(0)))
  }

  /** `state[key] = state.get(key, 0) + 1`. */
  function Bump(state: Session, key: Key): (r: Session)
    ensures key in r && Attempts(r, key) == Attempts(state, key) + 1
    ensures r.Keys == state.Keys + {key}
  {
    state[key := Num(Attempts(state, key) + 1)]
  }

  /** `state[FollowUpRequired] = True; state[FollowUpReason] = reason`. */
  function FollowUp(state: Session, reason: Value): (r: Session)
    ensures Get(r, FollowUpRequired) == Bool(true) && Get(r, FollowUpReason) == reason
  {
    state[FollowUpRequired := Bool(true)][FollowUpReason := reason]
  }

  /** `args.get(key, "").strip()` for a text argument. */
  function TextArg(args: map<string, Value>, key: string): string {
    var v := GetOr(args, key, Str(""));
    Strip(if v.Str? then v.s else "")
  }

  /** `args.get(key, False)` for a flag argument. */
  function Flag(args: map<string, Value>, key: string): Value {
    GetOr(args, key, Bool(false))
  }

  // -------------------------------------------------------------- identity

  /** `confirm_identity`. */
  function ConfirmIdentity(state: Session, gd: GlobalData, args: map<string, Value>): (t: Turn)
    ensures t.reply.next == Some(if Truthy(Get(gd, Global.CandidateEmail)) then EmailConfirm else EmailCollection)
    ensures t.saved.Some? && Get(t.saved.value, IdentityConfirmed) == Flag(args, "confirmed")
    ensures Truthy(Flag(args, "confirmed")) ==> t.saved.value == state[IdentityConfirmed := Flag(args, "confirmed")]
    ensures !Truthy(Flag(args, "confirmed")) ==> Get(t.saved.value, IdentityMismatch) == Bool(true)
    ensures t.reply.globalData.Some? <==> !Truthy(Flag(args, "confirmed")) && Truthy(Get(args, "caller_name"))
    ensures !Truthy(Flag(args, "confirmed")) && Truthy(Get(args, "caller_name")) ==>
      && t.reply.globalData == Some(gd[Global.OwnerName := Get(args, "caller_name")])
      && Get(t.saved.value, Key.OwnerName) == Get(args, "caller_name")
    ensures t.consent.None? && t.upsert.None? && t.sendTo.None?
  {
    var confirmed := Flag(args, "confirmed");
    var name := Get(args, "caller_name");
    var state := state[IdentityConfirmed := confirmed];
    var state :=
      if Truthy(confirmed) then state
      else
        var state := state[IdentityMismatch := Bool(true)];
        if Truthy(name) then state[Key.OwnerName := name] else state;
    var updates := if Truthy(name) && !Truthy(confirmed) then Some(gd[Global.OwnerName := name]) else None;
    var next := if Truthy(Get(gd, Global.CandidateEmail)) then EmailConfirm else EmailCollection;
    Turn(Some(state), None, None, None, Reply(Some(next), updates, None))
  }

  // ---------------------------------------------------------------- emails

  /** `process_email_confirmation`. */
  function ProcessEmailConfirmation(state: Session, gd: GlobalData, args: map<string, Value>): (t: Turn)
    ensures t.saved.Some? && t.reply.globalData.Some?
    ensures Truthy(Flag(args, "confirmed")) ==>
      && t.reply.next == Some(ZerobounceCheck)
      && Get(t.saved.value, Key.WorkingEmail) == Get(gd, Global.CandidateEmail)
      && Get(t.saved.value, EmailSource) == Str("trestle_confirmed")
      && Get(t.reply.globalData.value, Global.WorkingEmail) == Get(gd, Global.CandidateEmail)
    ensures !Truthy(Flag(args, "confirmed")) ==>
      && t.reply.next == Some(EmailCollection)
      && t.saved.value == state
      && Get(t.reply.globalData.value, Global.CandidateEmail) == Null
      && Get(t.reply.globalData.value, Global.WorkingEmail) == Null
  {
    if Truthy(Flag(args, "confirmed")) then
      var state := state[Key.WorkingEmail := Get(gd, Global.CandidateEmail)][EmailSource := Str("trestle_confirmed")];
      Turn(Some(state), None, None, None,
           Reply(Some(ZerobounceCheck), Some(gd[Global.WorkingEmail := Get(gd, Global.CandidateEmail)]), None))
    else
      Turn(Some(state), None, None, None,
           Reply(Some(EmailCollection), Some(gd[Global.CandidateEmail := Null][Global.WorkingEmail := Null]), None))
  }

  /** `initiate_email_collection`: voice spelling, whatever the line type. */
  function InitiateEmailCollection(gd: GlobalData): (t: Turn)
    ensures t.reply.next == Some(VoiceSpelling) && t.saved.None? && t.reply.globalData.None?
  {
    RouteOnly(VoiceSpelling)
  }

  /** The address `submit_spelled_email` works with: the argument, stripped and normalized. */
  function SpelledEmail(args: map<string, Value>): (email: string)
    ensures NoSpace(email)
  {
    NormalizeSpokenEmail(TextArg(args, "email"))
  }

  /** `submit_spelled_email` when the normalized address does not look like one: one more attempt, then give up after three. */
  function Misspelt(state: Session, email: string): (t: Turn)
    ensures t.saved.Some? && Attempts(t.saved.value, SpellingAttempts) == Attempts(state, SpellingAttempts) + 1
    ensures t.reply.next == Some(WrapUp) <==> Attempts(state, SpellingAttempts) + 1 >= 3
    ensures t.reply.next != Some(WrapUp) ==> t.reply.next == Some(VoiceSpelling)
    ensures t.reply.next == Some(WrapUp) ==>
      Get(t.saved.value, FollowUpRequired) == Bool(true) && Get(t.saved.value, FollowUpReason) == Str("email_not_captured")
    ensures t.reply.globalData.None? && t.consent.None? && t.upsert.None? && t.sendTo.None?
  {
    var state := Bump(state, SpellingAttempts);
    if Attempts(state, SpellingAttempts) >= 3 then
      Turn(Some(FollowUp(state, Str("email_not_captured"))), None, None, None, Reply(Some(WrapUp), None, None))
    else
      var readback := if '@' in email then NatoSpelling(email) else email;
      Turn(Some(state), None, None, None, Reply(Some(VoiceSpelling), None, Some(readback)))
  }

  /** `submit_spelled_email` once the address looks like one: read it back letter by letter, or take it when confirmed. */
  function Spelt(state: Session, gd: GlobalData, email: string, confirmed: bool): (t: Turn)
    ensures !confirmed ==> t.saved.None? && t.reply.next.None? && t.reply.readback == Some(NatoSpelling(email))
    ensures confirmed ==>
      && t.reply.next == Some(ZerobounceCheck)
      && t.saved.Some? && Get(t.saved.value, Key.WorkingEmail) == Str(email)
      && Get(t.saved.value, EmailSource) == Str("voice_spelling")
      && Attempts(t.saved.value, SpellingAttempts) == Attempts(state, SpellingAttempts) + 1
      && t.reply.globalData == Some(gd[Global.WorkingEmail := Str(email)])
    ensures t.consent.None? && t.upsert.None? && t.sendTo.None?
  {
    if !confirmed then
      Turn(None, None, None, None, Reply(None, None, Some(NatoSpelling(email))))
    else
      var state := state[Key.WorkingEmail := Str(email)][EmailSource := Str("voice_spelling")];
      var state := Bump(state, SpellingAttempts);
      Turn(Some(state), None, None, None, Reply(Some(ZerobounceCheck), Some(gd[Global.WorkingEmail := Str(email)]), None))
  }

  /** `submit_spelled_email`. */
  function SubmitSpelledEmail(state: Session, gd: GlobalData, args: map<string, Value>): (t: Turn)
    ensures !EmailShape(SpelledEmail(args)) ==> t == Misspelt(state, SpelledEmail(args))
    ensures EmailShape(SpelledEmail(args)) ==> t == Spelt(state, gd, SpelledEmail(args), Truthy(Flag(args, "confirmed")))
  {
    var email := SpelledEmail(args);
    if !EmailShape(email) then Misspelt(state, email)
    else Spelt(state, gd, email, Truthy(Flag(args, "confirmed")))
  }

  /** The address `validate_email` checks: the state's working email, else the global data's. */
  function EmailToValidate(state: Session, gd: GlobalData): Value {
    Or(Get(state, Key.WorkingEmail), Get(gd, Global.WorkingEmail))
  }

  /** `validate_email` once the verifier gave a verdict on `email`. */
  function Verdicted(state: Session, gd: GlobalData, email: Value, zb: Verdict): (t: Turn)
    ensures t.saved.Some? && Get(t.saved.value, ZbStatus) == Str(zb.status)
    ensures zb.isValid ==>
      t.reply.next == Some(EmailSendConsent) && GetOr(t.saved.value, FollowUpRequired, Null) == GetOr(state, FollowUpRequired, Null)
    ensures !zb.isValid && !zb.isInvalid ==>
      && t.reply.next == Some(EmailSendConsent)
      && Get(t.saved.value, FollowUpRequired) == Bool(true)
      && Get(t.saved.value, FollowUpReason) == Str("email_validation_failed")
    ensures !zb.isValid && zb.isInvalid <==> Attempts(t.saved.value, EmailAttempts) == Attempts(state, EmailAttempts) + 1
    ensures !zb.isValid && zb.isInvalid ==>
      && (t.reply.next == Some(WrapUp) <==> Attempts(state, EmailAttempts) + 1 >= 2)
      && (t.reply.next != Some(WrapUp) ==> t.reply.next == Some(EmailCollection))
    ensures !zb.isValid && zb.isInvalid && Attempts(state, EmailAttempts) + 1 >= 2 ==>
      Get(t.saved.value, FollowUpRequired) == Bool(true) && Get(t.saved.value, FollowUpReason) == Str("email_validation_failed")
    ensures !zb.isValid && zb.isInvalid && Attempts(state, EmailAttempts) + 1 < 2 ==>
      t.reply.globalData == Some(gd[Global.WorkingEmail := Null])
    ensures zb.isValid || !zb.isInvalid ==>
      && t.reply.globalData.Some?
      && Get(t.reply.globalData.value, Global.CandidateEmail) == email
      && Get(t.reply.globalData.value, Global.WorkingEmail) == email
    ensures t.consent.None? && t.upsert.None? && t.sendTo.None?
  {
    var passed := gd[Global.CandidateEmail := email][Global.WorkingEmail := email];
    var state := state[ZbStatus := Str(zb.status)][ZbSubStatus := Str(zb.subStatus)];
    if zb.isValid then
      Turn(Some(state), None, None, None, Reply(Some(EmailSendConsent), Some(passed), None))
    else if !zb.isInvalid then
      Turn(Some(FollowUp(state, Str("email_validation_failed"))), None, None, None,
           Reply(Some(EmailSendConsent), Some(passed), None))
    else
      var state := Bump(state, EmailAttempts);
      if Attempts(state, EmailAttempts) >= 2 then
        Turn(Some(FollowUp(state, Str("email_validation_failed"))), None, None, None, Reply(Some(WrapUp), None, None))
      else
        Turn(Some(state), None, None, None, Reply(Some(EmailCollection), Some(gd[Global.WorkingEmail := Null]), None))
  }

  /** `validate_email`; `verifier` is the email verifier's verdict on an address, `None` when the call fails. */
  function ValidateEmail(state: Session, gd: GlobalData, verifier: Value -> Option<Verdict>): (t: Turn)
    ensures !Truthy(EmailToValidate(state, gd)) ==> t == RouteOnly(EmailCollection)
    ensures Truthy(EmailToValidate(state, gd)) && verifier(EmailToValidate(state, gd)).None? ==>
      && t.saved == Some(state[ZbStatus := Str("api_error")]) && t.reply.next == Some(EmailSendConsent)
      && t.reply.globalData ==
           Some(gd[Global.CandidateEmail := EmailToValidate(state, gd)][Global.WorkingEmail := EmailToValidate(state, gd)])
      && t.consent.None? && t.upsert.None? && t.sendTo.None?
    ensures Truthy(EmailToValidate(state, gd)) && verifier(EmailToValidate(state, gd)).Some? ==>
      t == Verdicted(state, gd, EmailToValidate(state, gd), verifier(EmailToValidate(state, gd)).value)
  {
    var email := EmailToValidate(state, gd);
    if !Truthy(email) then RouteOnly(EmailCollection)
    else
      match verifier(email)
      case None =>
        Turn(Some(state[ZbStatus := Str("api_error")]), None, None, None,
             Reply(Some(EmailSendConsent), Some(gd[Global.CandidateEmail := email][Global.WorkingEmail := email]), None))
      case Some(zb) => Verdicted(state, gd, email, zb)
  }

  /** The address `process_email_consent` sends to: the state's working email, else the global data's, else the candidate. */
  function ConsentEmail(state: Session, gd: GlobalData): Value {
    Or(Or(Get(state, Key.WorkingEmail), Get(gd, Global.WorkingEmail)), Get(gd, Global.CandidateEmail))
  }

  /**
   * `process_email_consent`; `mailer` is the mail service's result for an
   * address, `None` when it is not configured.
   */
  function ProcessEmailConsent(state: Session, gd: GlobalData, args: map<string, Value>,
                               mailer: Value -> Option<SendResult>, now: int): (t: Turn)
    ensures t.consent == Some(Consent(EmailSend, Truthy(Flag(args, "consented"))))
    ensures t.saved.Some? && Get(t.saved.value, EmailConsent) == Flag(args, "consented")
    ensures t.sendTo.Some? <==> Truthy(Flag(args, "consented")) && Truthy(ConsentEmail(state, gd))
    ensures t.sendTo.Some? ==> t.sendTo.value == ConsentEmail(state, gd)
    ensures t.upsert.Some? <==> Truthy(Flag(args, "consented")) && Truthy(ConsentEmail(state, gd)) && PhoneOf(gd) != ""
    ensures t.upsert.Some? ==> t.upsert.value == map[ValidatedEmail := ConsentEmail(state, gd), LastCallAt := Time(now)]
    ensures t.reply.next == Some(if Truthy(Get(gd, Global.CandidateAddress)) then ConfirmAddress else AddressCollection)
    ensures t.reply.globalData.None?
  {
    var consented := Flag(args, "consented");
    var state := state[EmailConsent := consented];
    var next := if Truthy(Get(gd, Global.CandidateAddress)) then ConfirmAddress else AddressCollection;
    var consent := Some(Consent(EmailSend, Truthy(consented)));
    if !Truthy(consented) then
      Turn(Some(state), consent, None, None, Reply(Some(next), None, None))
    else
      var email := ConsentEmail(state, gd);
      var upsert :=
        if Truthy(email) && PhoneOf(gd) != "" then Some(map[ValidatedEmail := email, LastCallAt := Time(now)]) else None;
      if !Truthy(email) then
        Turn(Some(state), consent, upsert, None, Reply(Some(next), None, None))
      else
        var sent := mailer(email);
        var state := if sent.Some? && sent.value.success then state[PostmarkMessageId := sent.value.messageId] else state;
        Turn(Some(state), consent, upsert, Some(email), Reply(Some(next), None, None))
  }

  /** `process_sms_consent`: recorded and logged, then voice spelling either way. */
  function ProcessSmsConsent(state: Session, gd: GlobalData, args: map<string, Value>): (t: Turn)
    ensures t.consent == Some(Consent(Sms, Truthy(Flag(args, "consented"))))
    ensures t.saved == Some(state[Key.SmsConsent := Flag(args, "consented")])
    ensures t.reply.next == Some(VoiceSpelling)
    ensures t.upsert.None? && t.sendTo.None?
  {
    var consented := Flag(args, "consented");
    Turn(Some(state[Key.SmsConsent := consented]), Some(Consent(Sms, Truthy(consented))), None, None,
         Reply(Some(VoiceSpelling), None, None))
  }

  // ------------------------------------------------------------- addresses

  /** `process_address_confirmation`: "confirmed", "denied", and anything else counts as declined. */
  function ProcessAddressConfirmation(state: Session, gd: GlobalData, args: map<string, Value>): (t: Turn)
    ensures var response := GetOr(args, "response", Str("declined"));
      && (response == Str("confirmed") ==>
            t.reply.next == Some(AddressValidation)
            && t.saved.Some? && Get(t.saved.value, Key.CollectedAddress) == GetOr(gd, Global.CandidateAddress, Str("")))
      && (response == Str("denied") ==> t == RouteOnly(AddressCollection))
      && (response != Str("confirmed") && response != Str("denied") ==> t == RouteOnly(WrapUp))
  {
    var response := GetOr(args, "response", Str("declined"));
    if response == Str("confirmed") then
      var state := state[Key.CollectedAddress := GetOr(gd, Global.CandidateAddress, Str(""))]
                        [AddressSource := Str("confirmed_on_file")];
      Turn(Some(state), None, None, None, Reply(Some(AddressValidation), None, None))
    else if response == Str("denied") then RouteOnly(AddressCollection)
    else RouteOnly(WrapUp)
  }

  /** `submit_address` before the caller confirms: keep the heard address pending and read the normalized form back. */
  function AddressHeard(state: Session, raw: string, geo: Option<Geocode>): (t: Turn)
    ensures var normalized := if geo.Some? then geo.value.formatted else Str(raw);
      && t.saved.Some? && t.reply.next.None? && t.reply.readback == Some(Text(normalized))
      && Get(t.saved.value, PendingAddress) == normalized && Get(t.saved.value, PendingAddressRaw) == Str(raw)
      && Attempts(t.saved.value, AddressAttempts) == Attempts(state, AddressAttempts)
      && (geo.Some? ==> PendingGeocode in t.saved.value)
      && (geo.None? ==> Get(t.saved.value, PendingGeocode) == Get(state, PendingGeocode))
    ensures t.reply.globalData.None? && t.consent.None? && t.upsert.None? && t.sendTo.None?
  {
    var normalized := if geo.Some? then geo.value.formatted else Str(raw);
    var state := state[PendingAddress := normalized][PendingAddressRaw := Str(raw)];
    var state :=
      if geo.Some? then
        state[PendingGeocode := Dict(map["lat" := geo.value.lat, "lng" := geo.value.lng,
                                         "confidence" := geo.value.confidence])]
      else state;
    Turn(Some(state), None, None, None, Reply(None, None, Some(Text(normalized))))
  }

  /** `submit_address` once confirmed: the address is collected, one attempt counted, and validation comes next. */
  function AddressTaken(state: Session, gd: GlobalData, normalized: Value): (t: Turn)
    ensures t.reply.next == Some(AddressValidation)
    ensures t.saved.Some? && Get(t.saved.value, Key.CollectedAddress) == normalized
    ensures Get(t.saved.value, AddressSource) == Str("voice_collected")
    ensures Attempts(t.saved.value, AddressAttempts) == Attempts(state, AddressAttempts) + 1
    ensures t.reply.globalData == Some(gd[Global.CollectedAddress := normalized])
    ensures t.consent.None? && t.upsert.None? && t.sendTo.None?
  {
    var state := state[Key.CollectedAddress := normalized][AddressSource := Str("voice_collected")];
    Turn(Some(Bump(state, AddressAttempts)), None, None, None,
         Reply(Some(AddressValidation), Some(gd[Global.CollectedAddress := normalized]), None))
  }

  /** `submit_address`; `geocoder` is the geocoder's top result for an address, `None` when it has none. */
  function SubmitAddress(state: Session, gd: GlobalData, args: map<string, Value>,
                         geocoder: Value -> Option<Geocode>): (t: Turn)
    ensures TextArg(args, "address") == "" ==> t == RouteOnly(AddressCollection)
    ensures TextArg(args, "address") != "" && !Truthy(Flag(args, "confirmed")) ==>
      t == AddressHeard(state, TextArg(args, "address"), geocoder(Str(TextArg(args, "address"))))
    ensures TextArg(args, "address") != "" && Truthy(Flag(args, "confirmed")) ==>
      var geo := geocoder(Str(TextArg(args, "address")));
      t == AddressTaken(state, gd, if geo.Some? then geo.value.formatted else Str(TextArg(args, "address")))
  {
    var raw := TextArg(args, "address");
    if raw == "" then RouteOnly(AddressCollection)
    else
      var geo := geocoder(Str(raw));
      if !Truthy(Flag(args, "confirmed")) then AddressHeard(state, raw, geo)
      else AddressTaken(state, gd, if geo.Some? then geo.value.formatted else Str(raw))
  }

  /** The address `validate_address` checks: collected in this call, else in the global data, else the candidate. */
  function AddressToCheck(state: Session, gd: GlobalData): Value {
    Or(Or(Get(state, Key.CollectedAddress), Get(gd, Global.CollectedAddress)), Get(gd, Global.CandidateAddress))
  }

  /** `dpv in ("Y", "S", "D", None)`: deliverable, secondary missing, drop, or not checked. */
  predicate DpvAccepted(dpv: Value) {
    dpv == Str("Y") || dpv == Str("S") || dpv == Str("D") || dpv == Null
  }

  /** The caller fields `validate_address` stores once the address geocoded. */
  function GeocodedFields(address: Value, e: Enriched, now: int): map<Column, Value> {
    map[Column.CandidateAddress := address, Column.AddressNormalized := e.normalized, GeocodeLat := e.lat,
        GeocodeLng := e.lng, GeocodeConfidence := e.confidence, DpvMatchCode := e.dpv, LastCallAt := Time(now)]
  }

  /** `validate_address` when the postal check rejects the geocoded address: one more attempt, then give up after two. */
  function DpvRejected(state: Session, gd: GlobalData, upsert: Option<map<Column, Value>>): (t: Turn)
    ensures t.saved.Some? && Attempts(t.saved.value, AddressAttempts) == Attempts(state, AddressAttempts) + 1
    ensures t.reply.next == Some(WrapUp) <==> Attempts(state, AddressAttempts) + 1 >= 2
    ensures t.reply.next != Some(WrapUp) ==>
      t.reply.next == Some(AddressCollection) && t.reply.globalData == Some(gd[Global.CollectedAddress := Null])
    ensures t.reply.next == Some(WrapUp) ==>
      Get(t.saved.value, FollowUpRequired) == Bool(true) && Get(t.saved.value, FollowUpReason) == Str("address_validation_failed")
    ensures t.upsert == upsert && t.consent.None? && t.sendTo.None?
  {
    var state := Bump(state, AddressAttempts);
    if Attempts(state, AddressAttempts) >= 2 then
      Turn(Some(FollowUp(state, Str("address_validation_failed"))), None, upsert, None, Reply(Some(WrapUp), None, None))
    else
      Turn(Some(state), None, upsert, None, Reply(Some(AddressCollection), Some(gd[Global.CollectedAddress := Null]), None))
  }

  /** `validate_address` once the enrichment is known. */
  function AddressChecked(state: Session, gd: GlobalData, address: Value, e: Enriched, now: int): (t: Turn)
    ensures t.saved.Some? && t.consent.None? && t.sendTo.None?
    ensures t.upsert.Some? <==> PhoneOf(gd) != ""
    ensures e.normalized == Null ==>
      && t.reply.next == Some(WrapUp) && Get(t.saved.value, AddressValidationStatus) == Str("geocode_error")
      && (t.upsert.Some? ==> t.upsert.value == map[Column.CandidateAddress := address, LastCallAt := Time(now)])
      && t.reply.globalData == Some(gd[Global.CandidateAddress := address])
    ensures e.normalized != Null ==> t.upsert.Some? ==> t.upsert.value == GeocodedFields(address, e, now)
    ensures e.normalized != Null && DpvAccepted(e.dpv) ==>
      && t.reply.next == Some(WrapUp) && Get(t.saved.value, AddressValidationStatus) == Str("valid")
      && t.reply.globalData == Some(gd[Global.CandidateAddress := e.normalized][Global.CollectedAddress := e.normalized])
    ensures e.normalized != Null && !DpvAccepted(e.dpv) ==>
      t == DpvRejected(state, gd, if PhoneOf(gd) != "" then Some(GeocodedFields(address, e, now)) else None)
  {
    var phone := PhoneOf(gd);
    if e.normalized == Null then
      var upsert := if phone != "" then Some(map[Column.CandidateAddress := address, LastCallAt := Time(now)]) else None;
      Turn(Some(state[AddressValidationStatus := Str("geocode_error")]), None, upsert, None,
           Reply(Some(WrapUp), Some(gd[Global.CandidateAddress := address]), None))
    else
      var upsert := if phone != "" then Some(GeocodedFields(address, e, now)) else None;
      if DpvAccepted(e.dpv) then
        Turn(Some(state[AddressValidationStatus := Str("valid")]), None, upsert, None,
             Reply(Some(WrapUp), Some(gd[Global.CandidateAddress := e.normalized][Global.CollectedAddress := e.normalized]), None))
      else DpvRejected(state, gd, upsert)
  }

  /** `validate_address`; `enrich` is the agent's `_enrich_address` (see `Enrichment.EnrichAddress`). */
  function ValidateAddress(state: Session, gd: GlobalData, enrich: Value -> Enriched, now: int): (t: Turn)
    ensures !Truthy(AddressToCheck(state, gd)) ==> t == RouteOnly(AddressCollection)
    ensures Truthy(AddressToCheck(state, gd)) ==>
      t == AddressChecked(state, gd, AddressToCheck(state, gd),
                          enrich(AddressToCheck(state, gd)), now)
  {
    var address := AddressToCheck(state, gd);
    if !Truthy(address) then RouteOnly(AddressCollection)
    else AddressChecked(state, gd, address, enrich(address), now)
  }

  /** `schedule_followup`. */
  function ScheduleFollowup(state: Session, args: map<string, Value>): (t: Turn)
    ensures t.saved.Some? && Get(t.saved.value, FollowUpRequired) == Bool(true)
    ensures Get(t.saved.value, FollowUpReason) == GetOr(args, "reason", Str("unspecified"))
    ensures t.reply.next == Some(WrapUp)
  {
    Turn(Some(FollowUp(state, GetOr(args, "reason", Str("unspecified")))), None, None, None,
         Reply(Some(WrapUp), None, None))
  }

  // ------------------------------------------------------------- dispatch

  /** The services the handlers call, each as the answer it gives, and the agent's address enrichment. */
  datatype Services = Services(
    verifier: Value -> Option<Verdict>,
    mailer: Value -> Option<SendResult>,
    geocoder: Value -> Option<Geocode>,
    enrich: Value -> Enriched)

  /** The handler registered under each tool name. */
  function Dispatch(tool: Tool, state: Session, gd: GlobalData, args: map<string, Value>, services: Services, now: int): Turn {
    match tool
    case ConfirmIdentity => ConfirmIdentity(state, gd, args)
    case ProcessEmailConfirmation => ProcessEmailConfirmation(state, gd, args)
    case InitiateEmailCollection => InitiateEmailCollection(gd)
    case SubmitSpelledEmail => SubmitSpelledEmail(state, gd, args)
    case ValidateEmail => ValidateEmail(state, gd, services.verifier)
    case ProcessEmailConsent => ProcessEmailConsent(state, gd, args, services.mailer, now)
    case ProcessSmsConsent => ProcessSmsConsent(state, gd, args)
    case ProcessAddressConfirmation => ProcessAddressConfirmation(state, gd, args)
    case SubmitAddress => SubmitAddress(state, gd, args, services.geocoder)
    case ValidateAddress => ValidateAddress(state, gd, services.enrich, now)
    case ScheduleFollowup => ScheduleFollowup(state, args)
  }

  /** `submit_spelled_email` stays on the spelling step, moves on to validation, or wraps up. */
  lemma SpellingRoutes(state: Session, gd: GlobalData, args: map<string, Value>)
    ensures var next := SubmitSpelledEmail(state, gd, args).reply.next;
      next == None || next == Some(VoiceSpelling) || next == Some(WrapUp) || next == Some(ZerobounceCheck)
  {
    var email := SpelledEmail(args);
    if EmailShape(email) {
      assert SubmitSpelledEmail(state, gd, args) == Spelt(state, gd, email, Truthy(Flag(args, "confirmed")));
    } else {
      assert SubmitSpelledEmail(state, gd, args) == Misspelt(state, email);
    }
  }

  /** `validate_email` goes on to the consent step, back to collection, or wraps up. */
  lemma EmailCheckRoutes(state: Session, gd: GlobalData, verifier: Value -> Option<Verdict>)
    ensures var next := ValidateEmail(state, gd, verifier).reply.next;
      next == Some(EmailCollection) || next == Some(EmailSendConsent) || next == Some(WrapUp)
  {
    var email := EmailToValidate(state, gd);
    if Truthy(email) && verifier(email).Some? {
      var zb := verifier(email).value;
      assert !zb.isValid && zb.isInvalid ==> Attempts(ValidateEmail(state, gd, verifier).saved.value, EmailAttempts) == Attempts(state, EmailAttempts) + 1;
    }
  }

  /** `validate_address` goes back to collection or wraps up. */
  lemma AddressCheckRoutes(state: Session, gd: GlobalData, enrich: Value -> Enriched, now: int)
    ensures var next := ValidateAddress(state, gd, enrich, now).reply.next;
      next == Some(AddressCollection) || next == Some(WrapUp)
  {
    var address := AddressToCheck(state, gd);
    if Truthy(address) {
      var e := enrich(address);
      if e.normalized != Null && !DpvAccepted(e.dpv) {
        var upsert := if PhoneOf(gd) != "" then Some(GeocodedFields(address, e, now)) else None;
        assert ValidateAddress(state, gd, enrich, now) == DpvRejected(state, gd, upsert);
      }
    }
  }

  /**
   * No handler routes to a step the call's pruning removed: `email_confirm`
   * only with an email on file, `confirm_address` only with an address on
   * file, and never back to the greeting or to the SMS step.
   */
  lemma RoutesStayInPlan(tool: Tool, state: Session, gd: GlobalData, args: map<string, Value>, services: Services, now: int)
    ensures var next := Dispatch(tool, state, gd, args, services, now).reply.next;
      next.Some? ==>
        && Kept(next.value, Truthy(Get(gd, Global.CandidateAddress)), Truthy(Get(gd, Global.CandidateEmail)))
        && next.value != Greeting
  {
    match tool
    case SubmitSpelledEmail =>
      SpellingRoutes(state, gd, args);
    case ValidateEmail =>
      EmailCheckRoutes(state, gd, services.verifier);
    case ValidateAddress =>
      AddressCheckRoutes(state, gd, services.enrich, now);
    case _ =>
  }

  // --------------------------------------------------------- retry budgets

  /**
   * Three malformed spellings in a row, each saved and loaded again, end the
   * email attempt: the first two ask for the spelling again, the third wraps
   * up with a follow-up.
   */
  lemma SpellingGivesUpOnThird(sessions: map<string, SessionRow>, callId: string, gd: GlobalData,
                               args: map<string, Value>, now1: int, now2: int)
    requires Attempts(Loaded(sessions, callId), SpellingAttempts) == 0
    requires !EmailShape(SpelledEmail(args))
    ensures var t1 := SubmitSpelledEmail(Loaded(sessions, callId), gd, args);
      var s1 := Saved(sessions, callId, Null, t1.saved.value, now1);
      var t2 := SubmitSpelledEmail(Loaded(s1, callId), gd, args);
      var s2 := Saved(s1, callId, Null, t2.saved.value, now2);
      var t3 := SubmitSpelledEmail(Loaded(s2, callId), gd, args);
      && t1.reply.next == Some(VoiceSpelling)
      && t2.reply.next == Some(VoiceSpelling)
      && t3.reply.next == Some(WrapUp)
      && Get(t3.saved.value, FollowUpReason) == Str("email_not_captured")
  {
    var email := SpelledEmail(args);
    var t1 := SubmitSpelledEmail(Loaded(sessions, callId), gd, args);
    var s1 := Saved(sessions, callId, Null, t1.saved.value, now1);
    SavedAttempts(sessions, callId, t1.saved.value, now1, SpellingAttempts);
    var t2 := SubmitSpelledEmail(Loaded(s1, callId), gd, args);
    var s2 := Saved(s1, callId, Null, t2.saved.value, now2);
    SavedAttempts(s1, callId, t2.saved.value, now2, SpellingAttempts);
  }

  /** A counter written by a save is the one the next load sees. */
  lemma SavedAttempts(sessions: map<string, SessionRow>, callId: string, state: Session, now: int, key: Key)
    requires key in state
    ensures Attempts(Loaded(Saved(sessions, callId, Null, state, now), callId), key) == Attempts(state, key)
    ensures forall k :: k in state ==> Get(Loaded(Saved(sessions, callId, Null, state, now), callId), k) == state[k]
  {
    SaveThenLoad(sessions, callId, Null, state, now);
  }

  /**
   * Two "invalid" verdicts on the same working email end the email attempt:
   * the first sends the caller back to collection, the second wraps up.
   */
  lemma EmailGivesUpOnSecond(sessions: map<string, SessionRow>, callId: string, gd: GlobalData,
                             verifier: Value -> Option<Verdict>, now1: int)
    requires Attempts(Loaded(sessions, callId), EmailAttempts) == 0
    requires Truthy(Get(Loaded(sessions, callId), Key.WorkingEmail))
    requires var zb := verifier(Get(Loaded(sessions, callId), Key.WorkingEmail));
      zb.Some? && !zb.value.isValid && zb.value.isInvalid
    ensures var t1 := ValidateEmail(Loaded(sessions, callId), gd, verifier);
      var s1 := Saved(sessions, callId, Null, t1.saved.value, now1);
      var t2 := ValidateEmail(Loaded(s1, callId), t1.reply.globalData.value, verifier);
      && t1.reply.next == Some(EmailCollection)
      && Get(t1.reply.globalData.value, Global.WorkingEmail) == Null
      && t2.reply.next == Some(WrapUp)
      && Get(t2.saved.value, FollowUpReason) == Str("email_validation_failed")
  {
    var state := Loaded(sessions, callId);
    var t1 := ValidateEmail(state, gd, verifier);
    InvalidVerdict(state, gd, verifier);
    SavedAttempts(sessions, callId, t1.saved.value, now1, EmailAttempts);
    SavedAttempts(sessions, callId, t1.saved.value, now1, Key.WorkingEmail);
    InvalidVerdict(Loaded(Saved(sessions, callId, Null, t1.saved.value, now1), callId), t1.reply.globalData.value, verifier);
  }

  /** An "invalid" verdict on the state's working email counts an attempt and keeps the email in the state. */
  lemma InvalidVerdict(state: Session, gd: GlobalData, verifier: Value -> Option<Verdict>)
    requires Truthy(Get(state, Key.WorkingEmail))
    requires var zb := verifier(Get(state, Key.WorkingEmail)); zb.Some? && !zb.value.isValid && zb.value.isInvalid
    ensures var t := ValidateEmail(state, gd, verifier);
      && t.saved.Some? && EmailAttempts in t.saved.value && Key.WorkingEmail in t.saved.value
      && Attempts(t.saved.value, EmailAttempts) == Attempts(state, EmailAttempts) + 1
      && Get(t.saved.value, Key.WorkingEmail) == Get(state, Key.WorkingEmail)
      && (t.reply.next == Some(WrapUp) <==> Attempts(state, EmailAttempts) + 1 >= 2)
  {
    var zb := verifier(Get(state, Key.WorkingEmail)).value;
    assert ValidateEmail(state, gd, verifier).saved.value
      in {Bump(state[ZbStatus := Str(zb.status)][ZbSubStatus := Str(zb.subStatus)], EmailAttempts),
          FollowUp(Bump(state[ZbStatus := Str(zb.status)][ZbSubStatus := Str(zb.subStatus)], EmailAttempts), Str("email_validation_failed"))};
  }

  /**
   * An address the caller spelled and confirmed that then fails the postal
   * check wraps up at once: `submit_address` already counted one attempt,
   * so the first rejection reaches the limit of two.
   */
  lemma SpokenAddressNoRetry(sessions: map<string, SessionRow>, callId: string, gd: GlobalData,
                             args: map<string, Value>, services: Services, now1: int, now2: int)
    requires Attempts(Loaded(sessions, callId), AddressAttempts) == 0
    requires TextArg(args, "address") != "" && Truthy(Flag(args, "confirmed"))
    requires var t1 := SubmitAddress(Loaded(sessions, callId), gd, args, services.geocoder);
      var address := Get(t1.saved.value, Key.CollectedAddress);
      var e := services.enrich(address);
      Truthy(address) && e.normalized != Null && !DpvAccepted(e.dpv)
    ensures var t1 := SubmitAddress(Loaded(sessions, callId), gd, args, services.geocoder);
      var s1 := Saved(sessions, callId, Null, t1.saved.value, now1);
      var t2 := ValidateAddress(Loaded(s1, callId), t1.reply.globalData.value, services.enrich, now2);
      && t1.reply.next == Some(AddressValidation)
      && t2.reply.next == Some(WrapUp)
      && Get(t2.saved.value, FollowUpReason) == Str("address_validation_failed")
  {
    var t1 := SubmitAddress(Loaded(sessions, callId), gd, args, services.geocoder);
    SavedAttempts(sessions, callId, t1.saved.value, now1, AddressAttempts);
  }

  /** Confirming the address on file collects it without counting an attempt. */
  lemma ConfirmOnFile(state: Session, gd: GlobalData)
    ensures var t := ProcessAddressConfirmation(state, gd, map["response" := Str("confirmed")]);
      && t.reply.next == Some(AddressValidation) && t.saved.Some?
      && t.saved.value == state[Key.CollectedAddress := GetOr(gd, Global.CandidateAddress, Str(""))][AddressSource := Str("confirmed_on_file")]
  {
    assert GetOr(map["response" := Str("confirmed")], "response", Str("declined")) == Str("confirmed");
  }

  /** With no attempt counted yet, a collected address the postal check rejects sends the caller back to collection. */
  lemma FirstRejectionRetries(state: Session, gd: GlobalData, services: Services, now: int)
    requires Attempts(state, AddressAttempts) == 0
    requires var e := services.enrich(Get(state, Key.CollectedAddress));
      Truthy(Get(state, Key.CollectedAddress)) && e.normalized != Null && !DpvAccepted(e.dpv)
    ensures ValidateAddress(state, gd, services.enrich, now).reply.next == Some(AddressCollection)
  {
    var address := Get(state, Key.CollectedAddress);
    assert AddressToCheck(state, gd) == address;
    var e := services.enrich(address);
    var upsert := if PhoneOf(gd) != "" then Some(GeocodedFields(address, e, now)) else None;
    assert AddressChecked(state, gd, address, e, now) == DpvRejected(state, gd, upsert);
  }

  /**
   * The address on file, confirmed and then rejected by the postal check, gets
   * one more try: the caller is sent to address collection.
   */
  lemma OnFileAddressRetries(sessions: map<string, SessionRow>, callId: string, gd: GlobalData,
                             services: Services, now1: int, now2: int)
    requires Attempts(Loaded(sessions, callId), AddressAttempts) == 0
    requires var address := GetOr(gd, Global.CandidateAddress, Str(""));
      var e := services.enrich(address);
      Truthy(address) && e.normalized != Null && !DpvAccepted(e.dpv)
    ensures var t1 := ProcessAddressConfirmation(Loaded(sessions, callId), gd, map["response" := Str("confirmed")]);
      var s1 := Saved(sessions, callId, Null, t1.saved.value, now1);
      var t2 := ValidateAddress(Loaded(s1, callId), gd, services.enrich, now2);
      && t1.reply.next == Some(AddressValidation)
      && t2.reply.next == Some(AddressCollection)
  {
    var state := Loaded(sessions, callId);
    ConfirmOnFile(state, gd);
    var t1 := ProcessAddressConfirmation(state, gd, map["response" := Str("confirmed")]);
    assert AddressAttempts in DefaultCallState;
    SavedAttempts(sessions, callId, t1.saved.value, now1, AddressAttempts);
    SavedAttempts(sessions, callId, t1.saved.value, now1, Key.CollectedAddress);
    FirstRejectionRetries(Loaded(Saved(sessions, callId, Null, t1.saved.value, now1), callId), gd, services, now2);
  }
}
