/**
 * The agent itself (veronica.py `VeronicaAgent`): the tool handlers as the
 * platform invokes them, each loading the call's session state, changing it
 * key by key, saving it and calling `log_consent`, `upsert_caller` and the
 * mail service as it goes; the per-call setup `_per_call_config`, which
 * enriches the caller and prunes the step list; and `on_summary`.  Each
 * handler is proved to leave the store exactly as `Tools` says it should.
 */
module Agent {

  import opened Wrappers
  import opened Values
  import opened Readback
  import opened ApiClients
  import opened StateStore
  import opened Flow
  import opened Enrichment
  import opened Globals
  import Tools
  import Setup

  /** The store's three tables and the addresses a send was attempted for, whether or not the mail service is configured. */
  datatype Snapshot = Snapshot(
    callers: map<string, CallerRow>,
    sessions: map<string, SessionRow>,
    consents: seq<ConsentRow>,
    sent: seq<Value>)

  /** `log_consent(phone, call_id, kind, given)` when the turn logs consent: one row appended, the earlier ones untouched. */
  function LoggedIf(log: seq<ConsentRow>, phone: string, callId: string, c: Option<Tools.Consent>, now: int): (r: seq<ConsentRow>)
    ensures |r| == |log| + (if c.Some? then 1 else 0) && r[..|log|] == log
    ensures c.Some? ==>
      && r[|log|].id == |log| + 1 && r[|log|].phone == phone && r[|log|].callId == callId
      && r[|log|].consentType == c.value.kind && r[|log|].consented == (if c.value.given then 1 else 0)
    ensures LogWellFormed(log) ==> LogWellFormed(r)
  {
    if c.Some? then log + [ConsentRow(|log| + 1, phone, callId, c.value.kind, if c.value.given then 1 else 0, Null, now)]
    else log
  }

  /** `save_call_state(call_id, state)` when the turn saves: the next load gives the saved state, other calls' rows untouched. */
  function SavedIf(sessions: map<string, SessionRow>, callId: string, saved: Option<Session>, now: int): (r: map<string, SessionRow>)
    ensures saved.None? ==> r == sessions
    ensures saved.Some? ==> r.Keys == sessions.Keys + {callId} && Loaded(r, callId) == DefaultCallState + saved.value
    ensures forall id :: id != callId && id in sessions ==> id in r && r[id] == sessions[id]
  {
    if saved.Some? then
      SaveThenLoad(sessions, callId, Null, saved.value, now);
      Saved(sessions, callId, Null, saved.value, now)
    else sessions
  }

  /** `upsert_caller(phone, **fields)` when the turn upserts. */
  function UpsertedIf(callers: map<string, CallerRow>, phone: string, fields: Option<map<Column, Value>>, now: int): (r: map<string, CallerRow>)
    requires CallersWellFormed(callers)
    ensures CallersWellFormed(r)
    ensures fields.None? ==> r == callers
    ensures fields.Some? ==> r.Keys == callers.Keys + {phone} && r == callers[phone := r[phone]]
  {
    if fields.Some? then Upserted(callers, phone, fields.value, now) else callers
  }

  /**
   * The store after a handler's turn for call `callId` from the caller
   * `phone`: the state saved, the consent logged, the caller upserted and
   * the mail sent, each only when the turn does it.
   */
  function After(s: Snapshot, t: Tools.Turn, callId: string, phone: string, now: int): (r: Snapshot)
    requires CallersWellFormed(s.callers)
    ensures CallersWellFormed(r.callers)
    ensures r.sent == s.sent + (if t.sendTo.Some? then [t.sendTo.value] else [])
  {
    Snapshot(UpsertedIf(s.callers, phone, t.upsert, now),
             SavedIf(s.sessions, callId, t.saved, now),
             LoggedIf(s.consents, phone, callId, t.consent, now),
             if t.sendTo.Some? then s.sent + [t.sendTo.value] else s.sent)
  }

  /** A turn that only saves leaves the store with the state saved and nothing else changed. */
  lemma SaveOnly(before: Snapshot, sessions: map<string, SessionRow>, t: Tools.Turn, callId: string, phone: string, now: int)
    requires CallersWellFormed(before.callers)
    requires t.saved.Some? && t.consent.None? && t.upsert.None? && t.sendTo.None?
    requires sessions == Saved(before.sessions, callId, Null, t.saved.value, now)
    ensures After(before, t, callId, phone, now) == before.(sessions := sessions)
  {
  }

  /** A turn that neither saves, logs, upserts nor sends leaves the store as it was. */
  lemma NoEffect(before: Snapshot, t: Tools.Turn, callId: string, phone: string, now: int)
    requires CallersWellFormed(before.callers)
    requires t.saved.None? && t.consent.None? && t.upsert.None? && t.sendTo.None?
    ensures After(before, t, callId, phone, now) == before
  {
  }

  /** What `_get_call_context` takes from the request: the call id and the global data, either of which may be missing. */
  datatype Request = Request(callId: Option<string>, globalData: Option<GlobalData>)

  /** `_get_call_context`: a missing call id reads as "unknown", missing global data as empty, and the phone comes from the global data. */
  function CallContext(r: Request): (ctx: (string, GlobalData, string))
    ensures r.callId.None? ==> ctx.0 == "unknown"
    ensures r.callId.Some? ==> ctx.0 == r.callId.value
    ensures r.globalData.None? ==> ctx.1 == map[] && ctx.2 == ""
    ensures ctx.2 == Tools.PhoneOf(ctx.1)
  {
    var gd := r.globalData.GetOr(map[]);
    (r.callId.GetOr("unknown"), gd, Tools.PhoneOf(gd))
  }

  class VeronicaAgent {
    /** The SQLite store. */
    var db: Database
    /** The steps of the `default` context, as `_per_call_config` leaves them. */
    var steps: seq<Step>
    /** The global data `_per_call_config` sets for the call. */
    var globalData: GlobalData
    /** The addresses a confirmation email was handed to the mail service for, in order, whether or not the service is configured. */
    var sent: seq<Value>

    ghost predicate Valid()
      reads this, db
    {
      db.Valid()
    }

    /** The store as the handlers see it. */
    function Store(): Snapshot
      reads this, db
    {
      Snapshot(db.callers, db.sessions, db.consents, sent)
    }

    constructor(db: Database)
      requires db.Valid()
      ensures Valid() && this.db == db
      ensures steps == AllSteps && globalData == map[] && sent == []
    {
      this.db := db;
      steps := AllSteps;
      globalData := map[];
      sent := [];
    }

    /** `confirm_identity`. */
    method ConfirmIdentity(request: Request, args: map<string, Value>, now: int) returns (reply: Tools.Reply)
      requires Valid()
      modifies db
      ensures Valid()
      ensures var (callId, gd, phone) := CallContext(request);
        var t := Tools.ConfirmIdentity(Loaded(old(db.sessions), callId), gd, args);
        reply == t.reply && Store() == After(old(Store()), t, callId, phone, now)
    {
      var (callId, gd, phone) := CallContext(request);
      var confirmed := Tools.Flag(args, "confirmed");
      var name := Get(args, "caller_name");
      var state := db.LoadCallState(callId);
      state := state[IdentityConfirmed := confirmed];
      if !Truthy(confirmed) {
        state := state[IdentityMismatch := Bool(true)];
        if Truthy(name) {
          state := state[Key.OwnerName := name];
        }
      }
      db.SaveCallState(callId, state, Null, now);
      var updates := None;
      if Truthy(name) && !Truthy(confirmed) {
        updates := Some(gd[Global.OwnerName := name]);
      }
      var next := if Truthy(Get(gd, Global.CandidateEmail)) then EmailConfirm else EmailCollection;
      reply := Tools.Reply(Some(next), updates, None);
    }

    /** `process_email_confirmation`. */
    method ProcessEmailConfirmation(request: Request, args: map<string, Value>, now: int) returns (reply: Tools.Reply)
      requires Valid()
      modifies db
      ensures Valid()
      ensures var (callId, gd, phone) := CallContext(request);
        var t := Tools.ProcessEmailConfirmation(Loaded(old(db.sessions), callId), gd, args);
        reply == t.reply && Store() == After(old(Store()), t, callId, phone, now)
    {
      var (callId, gd, phone) := CallContext(request);
      var state := db.LoadCallState(callId);
      if Truthy(Tools.Flag(args, "confirmed")) {
        state := state[Key.WorkingEmail := Get(gd, Global.CandidateEmail)];
        state := state[EmailSource := Str("trestle_confirmed")];
        db.SaveCallState(callId, state, Null, now);
        reply := Tools.Reply(Some(ZerobounceCheck), Some(gd[Global.WorkingEmail := Get(gd, Global.CandidateEmail)]), None);
      } else {
        db.SaveCallState(callId, state, Null, now);
        reply := Tools.Reply(Some(EmailCollection), Some(gd[Global.CandidateEmail := Null][Global.WorkingEmail := Null]), None);
      }
    }

    /** `initiate_email_collection`: nothing is stored. */
    method InitiateEmailCollection(request: Request) returns (reply: Tools.Reply)
      ensures reply == Tools.InitiateEmailCollection(CallContext(request).1).reply
    {
      var (callId, gd, phone) := CallContext(request);
      reply := Tools.Reply(Some(VoiceSpelling), None, None);
    }

    /** `state["follow_up_required"] = True; state["follow_up_reason"] = reason; save_call_state(call_id, state)`. */
    method FlagFollowUp(callId: string, state: Session, reason: Value, now: int) returns (saved: Session)
      requires Valid()
      modifies db
      ensures Valid()
      ensures saved == Tools.FollowUp(state, reason)
      ensures db.sessions == Saved(old(db.sessions), callId, Null, saved, now)
      ensures db.callers == old(db.callers) && db.consents == old(db.consents)
    {
      saved := state[FollowUpRequired := Bool(true)][FollowUpReason := reason];
      db.SaveCallState(callId, saved, Null, now);
    }

    /** `submit_spelled_email` when the address does not look like one: count the attempt, give up on the third. */
    method RetrySpelling(callId: string, loaded: Session, email: string, now: int) returns (reply: Tools.Reply)
      requires Valid()
      modifies db
      ensures Valid()
      ensures var t := Tools.Misspelt(loaded, email);
        reply == t.reply && db.sessions == Saved(old(db.sessions), callId, Null, t.saved.value, now)
      ensures db.callers == old(db.callers) && db.consents == old(db.consents)
    {
      var before := db.sessions;
      var state := loaded[SpellingAttempts := Num(Tools.Attempts(loaded, SpellingAttempts) + 1)];
      assert state == Tools.Bump(loaded, SpellingAttempts);
      db.SaveCallState(callId, state, Null, now);
      if Tools.Attempts(state, SpellingAttempts) >= 3 {
        var first := state;
        state := FlagFollowUp(callId, state, Str("email_not_captured"), now);
        SaveTwice(before, callId, Null, first, state, now);
        reply := Tools.Reply(Some(WrapUp), None, None);
        assert Tools.Misspelt(loaded, email) == Tools.Turn(Some(state), None, None, None, reply);
        return;
      }
      var nato := email;
      if '@' in email {
        nato := NatoSpellEmail(email);
      }
      reply := Tools.Reply(Some(VoiceSpelling), None, Some(nato));
      assert Tools.Misspelt(loaded, email) == Tools.Turn(Some(state), None, None, None, reply);
    }

    /** `submit_spelled_email` once the caller confirmed the read-back: the address becomes the working email. */
    method TakeSpelling(callId: string, state: Session, gd: GlobalData, email: string, now: int) returns (reply: Tools.Reply)
      requires Valid()
      modifies db
      ensures Valid()
      ensures var t := Tools.Spelt(state, gd, email, true);
        reply == t.reply && db.sessions == Saved(old(db.sessions), callId, Null, t.saved.value, now)
      ensures db.callers == old(db.callers) && db.consents == old(db.consents)
    {
      var state := state[Key.WorkingEmail := Str(email)][EmailSource := Str("voice_spelling")];
      state := state[SpellingAttempts := Num(Tools.Attempts(state, SpellingAttempts) + 1)];
      db.SaveCallState(callId, state, Null, now);
      reply := Tools.Reply(Some(ZerobounceCheck), Some(gd[Global.WorkingEmail := Str(email)]), None);
    }

    /** `submit_spelled_email`. */
    method SubmitSpelledEmail(request: Request, args: map<string, Value>, now: int) returns (reply: Tools.Reply)
      requires Valid()
      modifies db
      ensures Valid()
      ensures var (callId, gd, phone) := CallContext(request);
        var t := Tools.SubmitSpelledEmail(Loaded(old(db.sessions), callId), gd, args);
        reply == t.reply && Store() == After(old(Store()), t, callId, phone, now)
    {
      var (callId, gd, phone) := CallContext(request);
      var rawEmail := Tools.TextArg(args, "email");
      var confirmed := Tools.Flag(args, "confirmed");
      var state := db.LoadCallState(callId);
      var email := NormalizeSpokenEmail(rawEmail);
      assert email == Tools.SpelledEmail(args);
      if !EmailShape(email) {
        reply := RetrySpelling(callId, state, email, now);
        SaveOnly(old(Store()), db.sessions, Tools.Misspelt(state, email), callId, phone, now);
      } else if !Truthy(confirmed) {
        var nato := NatoSpellEmail(email);
        reply := Tools.Reply(None, None, Some(nato));
        NoEffect(old(Store()), Tools.Spelt(state, gd, email, false), callId, phone, now);
      } else {
        reply := TakeSpelling(callId, state, gd, email, now);
        SaveOnly(old(Store()), db.sessions, Tools.Spelt(state, gd, email, true), callId, phone, now);
      }
    }

    /** `validate_email` once the verifier has answered: record the verdict, count an "invalid" one, give up on the second. */
    method RecordVerdict(callId: string, state: Session, gd: GlobalData, email: Value, zb: Verdict, now: int)
      returns (reply: Tools.Reply)
      requires Valid()
      modifies db
      ensures Valid()
      ensures var t := Tools.Verdicted(state, gd, email, zb);
        reply == t.reply && db.sessions == Saved(old(db.sessions), callId, Null, t.saved.value, now)
      ensures db.callers == old(db.callers) && db.consents == old(db.consents)
    {
      var before := db.sessions;
      var passed := gd[Global.CandidateEmail := email][Global.WorkingEmail := email];
      var state := state[ZbStatus := Str(zb.status)][ZbSubStatus := Str(zb.subStatus)];
      db.SaveCallState(callId, state, Null, now);
      if zb.isValid {
        reply := Tools.Reply(Some(EmailSendConsent), Some(passed), None);
        return;
      }
      var first := state;
      if !zb.isInvalid {
        state := FlagFollowUp(callId, state, Str("email_validation_failed"), now);
        SaveTwice(before, callId, Null, first, state, now);
        reply := Tools.Reply(Some(EmailSendConsent), Some(passed), None);
        return;
      }
      state := state[EmailAttempts := Num(Tools.Attempts(state, EmailAttempts) + 1)];
      db.SaveCallState(callId, state, Null, now);
      SaveTwice(before, callId, Null, first, state, now);
      if Tools.Attempts(state, EmailAttempts) >= 2 {
        var second := state;
        state := FlagFollowUp(callId, state, Str("email_validation_failed"), now);
        SaveTwice(before, callId, Null, second, state, now);
        reply := Tools.Reply(Some(WrapUp), None, None);
        return;
      }
      reply := Tools.Reply(Some(EmailCollection), Some(gd[Global.WorkingEmail := Null]), None);
    }

    /** `validate_email`; `verifier` is the email verifier's verdict, `None` when the call fails. */
    method ValidateEmail(request: Request, verifier: Value -> Option<Verdict>, now: int) returns (reply: Tools.Reply)
      requires Valid()
      modifies db
      ensures Valid()
      ensures var (callId, gd, phone) := CallContext(request);
        var t := Tools.ValidateEmail(Loaded(old(db.sessions), callId), gd, verifier);
        reply == t.reply && Store() == After(old(Store()), t, callId, phone, now)
    {
      var (callId, gd, phone) := CallContext(request);
      var state := db.LoadCallState(callId);
      var email := Or(Get(state, Key.WorkingEmail), Get(gd, Global.WorkingEmail));
      if !Truthy(email) {
        reply := Tools.Reply(Some(EmailCollection), None, None);
        return;
      }
      var zb := verifier(email);
      if zb.None? {
        db.SaveCallState(callId, state[ZbStatus := Str("api_error")], Null, now);
        reply := Tools.Reply(Some(EmailSendConsent), Some(gd[Global.CandidateEmail := email][Global.WorkingEmail := email]), None);
        return;
      }
      reply := RecordVerdict(callId, state, gd, email, zb.value, now);
    }

    /**
     * The consented half of `process_email_consent`: upsert the address as
     * validated when the caller's phone is known, mail it, and save the
     * state again with the message id once the mail service accepts.
     */
    method SendConfirmation(callId: string, phone: string, state: Session, gd: GlobalData,
                            mailer: Value -> Option<SendResult>, now: int, ghost before: map<string, SessionRow>)
      returns (saved: Session)
      requires Valid() && db.sessions == Saved(before, callId, Null, state, now)
      modifies this, db
      ensures Valid() && db == old(db) && steps == old(steps) && globalData == old(globalData)
      ensures var email := Tools.ConsentEmail(state, gd);
        var pm := mailer(email);
        && saved == (if Truthy(email) && pm.Some? && pm.value.success then state[PostmarkMessageId := pm.value.messageId] else state)
        && db.sessions == Saved(before, callId, Null, saved, now)
        && db.callers == UpsertedIf(old(db.callers), phone, if Truthy(email) && phone != "" then Some(map[ValidatedEmail := email, LastCallAt := Time(now)]) else None, now)
        && db.consents == old(db.consents)
        && sent == old(sent) + (if Truthy(email) then [email] else [])
    {
      saved := state;
      var email := Or(Or(Get(state, Key.WorkingEmail), Get(gd, Global.WorkingEmail)), Get(gd, Global.CandidateEmail));
      if Truthy(email) && phone != "" {
        var _ := db.UpsertCaller(phone, map[ValidatedEmail := email, LastCallAt := Time(now)], now);
      }
      if Truthy(email) {
        var pm := mailer(email);
        sent := sent + [email];
        if pm.Some? && pm.value.success {
          saved := state[PostmarkMessageId := pm.value.messageId];
          db.SaveCallState(callId, saved, Null, now);
          SaveTwice(before, callId, Null, state, saved, now);
        }
      }
    }

    /** `process_email_consent`: save the answer and log it, then with consent send the confirmation; `mailer` is the mail service's result, `None` when not configured. */
    method ProcessEmailConsent(request: Request, args: map<string, Value>, mailer: Value -> Option<SendResult>, now: int)
      returns (reply: Tools.Reply)
      requires Valid()
      modifies this, db
      ensures Valid() && db == old(db)
      ensures steps == old(steps) && globalData == old(globalData)
      ensures var (callId, gd, phone) := CallContext(request);
        var t := Tools.ProcessEmailConsent(Loaded(old(db.sessions), callId), gd, args, mailer, now);
        reply == t.reply && Store() == After(old(Store()), t, callId, phone, now)
    {
      var (callId, gd, phone) := CallContext(request);
      var consented := Tools.Flag(args, "consented");
      var before := db.sessions;
      var loaded := db.LoadCallState(callId);
      var state := loaded[EmailConsent := consented];
      db.SaveCallState(callId, state, Null, now);
      db.LogConsent(phone, callId, EmailSend, Truthy(consented), Null, now);
      ghost var upsert: Option<map<Column, Value>> := None;
      ghost var sendTo: Option<Value> := None;
      if Truthy(consented) {
        ghost var email := Tools.ConsentEmail(state, gd);
        upsert := if Truthy(email) && phone != "" then Some(map[ValidatedEmail := email, LastCallAt := Time(now)]) else None;
        sendTo := if Truthy(email) then Some(email) else None;
        state := SendConfirmation(callId, phone, state, gd, mailer, now, before);
      }
      var next := if Truthy(Get(gd, Global.CandidateAddress)) then ConfirmAddress else AddressCollection;
      reply := Tools.Reply(Some(next), None, None);
      assert Tools.ProcessEmailConsent(loaded, gd, args, mailer, now)
          == Tools.Turn(Some(state), Some(Tools.Consent(EmailSend, Truthy(consented))), upsert, sendTo, reply);
    }

    /** `process_sms_consent`. */
    method ProcessSmsConsent(request: Request, args: map<string, Value>, now: int) returns (reply: Tools.Reply)
      requires Valid()
      modifies db
      ensures Valid()
      ensures var (callId, gd, phone) := CallContext(request);
        var t := Tools.ProcessSmsConsent(Loaded(old(db.sessions), callId), gd, args);
        reply == t.reply && Store() == After(old(Store()), t, callId, phone, now)
    {
      var (callId, gd, phone) := CallContext(request);
      var consented := Tools.Flag(args, "consented");
      var state := db.LoadCallState(callId);
      state := state[Key.SmsConsent := consented];
      db.SaveCallState(callId, state, Null, now);
      db.LogConsent(phone, callId, Sms, Truthy(consented), Null, now);
      reply := Tools.Reply(Some(VoiceSpelling), None, None);
    }

    /** `process_address_confirmation`. */
    method ProcessAddressConfirmation(request: Request, args: map<string, Value>, now: int) returns (reply: Tools.Reply)
      requires Valid()
      modifies db
      ensures Valid()
      ensures var (callId, gd, phone) := CallContext(request);
        var t := Tools.ProcessAddressConfirmation(Loaded(old(db.sessions), callId), gd, args);
        reply == t.reply && Store() == After(old(Store()), t, callId, phone, now)
    {
      var (callId, gd, phone) := CallContext(request);
      var response := GetOr(args, "response", Str("declined"));
      var state := db.LoadCallState(callId);
      if response == Str("confirmed") {
        state := state[Key.CollectedAddress := GetOr(gd, Global.CandidateAddress, Str(""))];
        state := state[AddressSource := Str("confirmed_on_file")];
        db.SaveCallState(callId, state, Null, now);
        reply := Tools.Reply(Some(AddressValidation), None, None);
      } else if response == Str("denied") {
        reply := Tools.Reply(Some(AddressCollection), None, None);
      } else {
        reply := Tools.Reply(Some(WrapUp), None, None);
      }
    }

    /** `submit_address` before the caller confirms: the heard address is kept pending. */
    method KeepPendingAddress(callId: string, state: Session, rawAddress: string, geo: Option<Geocode>, now: int)
      returns (reply: Tools.Reply)
      requires Valid()
      modifies db
      ensures Valid()
      ensures var t := Tools.AddressHeard(state, rawAddress, geo);
        reply == t.reply && db.sessions == Saved(old(db.sessions), callId, Null, t.saved.value, now)
      ensures db.callers == old(db.callers) && db.consents == old(db.consents)
    {
      var state := state;
      var normalized := if geo.Some? then geo.value.formatted else Str(rawAddress);
      state := state[PendingAddress := normalized][PendingAddressRaw := Str(rawAddress)];
      if geo.Some? {
        state := state[PendingGeocode := Dict(map["lat" := geo.value.lat, "lng" := geo.value.lng,
                                                  "confidence" := geo.value.confidence])];
      }
      db.SaveCallState(callId, state, Null, now);
      reply := Tools.Reply(None, None, Some(Text(normalized)));
    }

    /** `submit_address` once confirmed: the address is collected and one attempt counted. */
    method TakeAddress(callId: string, state: Session, gd: GlobalData, normalized: Value, now: int)
      returns (reply: Tools.Reply)
      requires Valid()
      modifies db
      ensures Valid()
      ensures var t := Tools.AddressTaken(state, gd, normalized);
        reply == t.reply && db.sessions == Saved(old(db.sessions), callId, Null, t.saved.value, now)
      ensures db.callers == old(db.callers) && db.consents == old(db.consents)
    {
      var state := state;
      state := state[Key.CollectedAddress := normalized][AddressSource := Str("voice_collected")];
      state := state[AddressAttempts := Num(Tools.Attempts(state, AddressAttempts) + 1)];
      db.SaveCallState(callId, state, Null, now);
      reply := Tools.Reply(Some(AddressValidation), Some(gd[Global.CollectedAddress := normalized]), None);
    }

    /** `submit_address`; `geocoder` is the geocoder's top result, `None` when it has none. */
    method SubmitAddress(request: Request, args: map<string, Value>, geocoder: Value -> Option<Geocode>, now: int)
      returns (reply: Tools.Reply)
      requires Valid()
      modifies db
      ensures Valid()
      ensures var (callId, gd, phone) := CallContext(request);
        var t := Tools.SubmitAddress(Loaded(old(db.sessions), callId), gd, args, geocoder);
        reply == t.reply && Store() == After(old(Store()), t, callId, phone, now)
    {
      var (callId, gd, phone) := CallContext(request);
      var rawAddress := Tools.TextArg(args, "address");
      var confirmed := Tools.Flag(args, "confirmed");
      var state := db.LoadCallState(callId);
      if rawAddress == "" {
        reply := Tools.Reply(Some(AddressCollection), None, None);
        return;
      }
      var geo := geocoder(Str(rawAddress));
      if !Truthy(confirmed) {
        reply := KeepPendingAddress(callId, state, rawAddress, geo, now);
      } else {
        reply := TakeAddress(callId, state, gd, if geo.Some? then geo.value.formatted else Str(rawAddress), now);
      }
    }

    /** `validate_address` when the postal check rejects the address: count the attempt, give up on the second. */
    method RejectAddress(callId: string, state: Session, gd: GlobalData, ghost upsert: Option<map<Column, Value>>, now: int)
      returns (reply: Tools.Reply)
      requires Valid()
      modifies db
      ensures Valid()
      ensures var t := Tools.DpvRejected(state, gd, upsert);
        reply == t.reply && db.sessions == Saved(old(db.sessions), callId, Null, t.saved.value, now)
      ensures db.callers == old(db.callers) && db.consents == old(db.consents)
    {
      var before := db.sessions;
      var state := state[AddressAttempts := Num(Tools.Attempts(state, AddressAttempts) + 1)];
      db.SaveCallState(callId, state, Null, now);
      if Tools.Attempts(state, AddressAttempts) >= 2 {
        var first := state;
        state := FlagFollowUp(callId, state, Str("address_validation_failed"), now);
        SaveTwice(before, callId, Null, first, state, now);
        reply := Tools.Reply(Some(WrapUp), None, None);
        return;
      }
      reply := Tools.Reply(Some(AddressCollection), Some(gd[Global.CollectedAddress := Null]), None);
    }

    /** `validate_address` once the address is enriched: store what was learnt about the caller, then judge the match code. */
    method CheckAddress(callId: string, phone: string, state: Session, gd: GlobalData, address: Value, e: Enriched, now: int)
      returns (reply: Tools.Reply)
      requires Valid() && phone == Tools.PhoneOf(gd)
      modifies db
      ensures Valid()
      ensures var t := Tools.AddressChecked(state, gd, address, e, now);
        && reply == t.reply && db.sessions == Saved(old(db.sessions), callId, Null, t.saved.value, now)
        && db.callers == UpsertedIf(old(db.callers), phone, t.upsert, now) && db.consents == old(db.consents)
    {
      if e.normalized == Null {
        db.SaveCallState(callId, state[AddressValidationStatus := Str("geocode_error")], Null, now);
        if phone != "" {
          var _ := db.UpsertCaller(phone, map[Column.CandidateAddress := address, LastCallAt := Time(now)], now);
        }
        reply := Tools.Reply(Some(WrapUp), Some(gd[Global.CandidateAddress := address]), None);
        return;
      }
      if phone != "" {
        var _ := db.UpsertCaller(phone, Tools.GeocodedFields(address, e, now), now);
      }
      if Tools.DpvAccepted(e.dpv) {
        db.SaveCallState(callId, state[AddressValidationStatus := Str("valid")], Null, now);
        reply := Tools.Reply(Some(WrapUp), Some(gd[Global.CandidateAddress := e.normalized][Global.CollectedAddress := e.normalized]), None);
        return;
      }
      reply := RejectAddress(callId, state, gd, if phone != "" then Some(Tools.GeocodedFields(address, e, now)) else None, now);
    }

    /**
     * `validate_address`, enriching the address with `_enrich_address`
     * over the given geocoder and postal validator.
     */
    method ValidateAddress(request: Request, geocoder: Value -> Option<Geocode>,
                           validator: PostalQuery -> Option<PostalResult>, now: int) returns (reply: Tools.Reply)
      requires Valid()
      modifies db
      ensures Valid()
      ensures var (callId, gd, phone) := CallContext(request);
        var t := Tools.ValidateAddress(Loaded(old(db.sessions), callId), gd, a => EnrichAddress(a, geocoder, validator), now);
        reply == t.reply && Store() == After(old(Store()), t, callId, phone, now)
    {
      var (callId, gd, phone) := CallContext(request);
      var state := db.LoadCallState(callId);
      var address := Or(Or(Get(state, Key.CollectedAddress), Get(gd, Global.CollectedAddress)), Get(gd, Global.CandidateAddress));
      if !Truthy(address) {
        reply := Tools.Reply(Some(AddressCollection), None, None);
        return;
      }
      var e := EnrichAddress(address, geocoder, validator);
      reply := CheckAddress(callId, phone, state, gd, address, e, now);
    }

    /** `schedule_followup`. */
    method ScheduleFollowup(request: Request, args: map<string, Value>, now: int) returns (reply: Tools.Reply)
      requires Valid()
      modifies db
      ensures Valid()
      ensures var (callId, gd, phone) := CallContext(request);
        var t := Tools.ScheduleFollowup(Loaded(old(db.sessions), callId), args);
        reply == t.reply && Store() == After(old(Store()), t, callId, phone, now)
    {
      var (callId, gd, phone) := CallContext(request);
      var reason := GetOr(args, "reason", Str("unspecified"));
      var state := db.LoadCallState(callId);
      state := state[FollowUpRequired := Bool(true)][FollowUpReason := reason];
      db.SaveCallState(callId, state, Null, now);
      reply := Tools.Reply(Some(WrapUp), None, None);
    }

    // ------------------------------------------------------ per-call setup

    /** `ctx.remove_step(name)`; removing a step that is not there is a failure the caller ignores. */
    method RemoveStep(s: Step)
      modifies this
      ensures steps == Without(old(steps), s)
      ensures db == old(db) && globalData == old(globalData) && sent == old(sent)
    {
      steps := Without(steps, s);
    }

    /** The removals at the end of `_per_call_config`, each ignoring a step that is already gone. */
    method PruneSteps(hasAddress: bool, hasEmail: bool)
      modifies this
      ensures steps == Flow.Pruned(old(steps), hasAddress, hasEmail)
      ensures db == old(db) && globalData == old(globalData) && sent == old(sent)
    {
      if !hasAddress {
        RemoveStep(Step.ConfirmAddress);
      }
      RemoveStep(Step.SmsConsent);
      if !hasEmail {
        RemoveStep(Step.EmailConfirm);
      }
    }

    /** The returning, fresh path: read the stored record, rebuild the extras, backfill the geocode. */
    method RecallCaller(phone: string, c: CallerRow, rebuild: Value -> Option<Lookup>,
                        geocoder: Value -> Option<Geocode>, validator: PostalQuery -> Option<PostalResult>, now: int)
      returns (p: Setup.Profile)
      requires Valid()
      modifies db
      ensures Valid()
      ensures p == Setup.Recalled(c, rebuild, a => EnrichAddress(a, geocoder, validator))
      ensures db.callers == UpsertedIf(old(db.callers), phone, p.upsert, now)
      ensures db.sessions == old(db.sessions) && db.consents == old(db.consents)
    {
      var ownerName := Cell(c, Column.OwnerName);
      var candidateEmail := Or(Cell(c, ValidatedEmail), Cell(c, Column.CandidateEmail));
      var candidateAddress := Or(Cell(c, Column.AddressNormalized), Cell(c, Column.CandidateAddress));
      var addressNormalized := Cell(c, Column.AddressNormalized);
      var geocodeLat := Cell(c, GeocodeLat);
      var lineType := Cell(c, Column.LineType);
      var smsEligible := Truthy(Cell(c, Column.SmsEligible));
      var extras := map[];
      var storedRaw := Cell(c, TrestleRaw);
      if Truthy(storedRaw) {
        extras := TrestleExtras(rebuild(storedRaw));
      }
      var upsert := None;
      var rawAddress := Cell(c, Column.CandidateAddress);
      if Truthy(rawAddress) && !Truthy(geocodeLat) {
        var e := EnrichAddress(rawAddress, geocoder, validator);
        addressNormalized := e.normalized;
        geocodeLat := e.lat;
        if Truthy(geocodeLat) {
          upsert := Some(Setup.BackfillFields(e));
          var _ := db.UpsertCaller(phone, upsert.value, now);
          candidateAddress := Or(addressNormalized, candidateAddress);
        }
      }
      p := Setup.Profile(ownerName, candidateEmail, candidateAddress, addressNormalized, lineType, smsEligible,
                         Setup.Returning, extras, upsert);
    }

    /**
     * The enriching paths once the identity lookup answered, for a new caller
     * (`stored` is `None`) or a stale record: merge, enrich, upsert everything.
     */
    method EnrichCaller(phone: string, t: Lookup, stored: Option<CallerRow>,
                        geocoder: Value -> Option<Geocode>, validator: PostalQuery -> Option<PostalResult>, now: int)
      returns (p: Setup.Profile)
      requires Valid()
      modifies db
      ensures Valid()
      ensures p == Setup.LookedUp(t, stored, a => EnrichAddress(a, geocoder, validator), now)
      ensures db.callers == UpsertedIf(old(db.callers), phone, p.upsert, now)
      ensures db.sessions == old(db.sessions) && db.consents == old(db.consents)
    {
      var ownerName := t.ownerName;
      var candidateEmail := t.candidateEmail;
      var candidateAddress := t.candidateAddress;
      var lineType := Str(t.lineType);
      var source := Setup.New;
      if stored.Some? {
        var c := stored.value;
        ownerName := Or(ownerName, Cell(c, Column.OwnerName));
        candidateEmail := Or(candidateEmail, Or(Cell(c, ValidatedEmail), Cell(c, Column.CandidateEmail)));
        candidateAddress := Or(candidateAddress, Or(Cell(c, Column.AddressNormalized), Cell(c, Column.CandidateAddress)));
        lineType := Or(lineType, Cell(c, Column.LineType));
        source := Setup.Refreshed;
      }
      var extras := TrestleExtras(Some(t));
      var e := EnrichAddress(candidateAddress, geocoder, validator);
      var fields := Setup.LookupFields(t, ownerName, lineType, e, now);
      var _ := db.UpsertCaller(phone, fields, now);
      p := Setup.Profile(ownerName, candidateEmail, candidateAddress, e.normalized, lineType, t.smsEligible,
                         source, extras, Some(fields));
    }

    /** The caller lookup and the three paths of `_per_call_config`, with what each writes to `callers`. */
    method FindCaller(phone: string, identity: string -> Option<Lookup>, rebuild: Value -> Option<Lookup>,
                      geocoder: Value -> Option<Geocode>, validator: PostalQuery -> Option<PostalResult>, now: int)
      returns (p: Setup.Profile)
      requires Valid()
      modifies db
      ensures Valid()
      ensures p == Setup.ProfileOf(Setup.CallerOf(old(db.callers), phone), identity(phone), rebuild,
                                   a => EnrichAddress(a, geocoder, validator), now)
      ensures db.callers == UpsertedIf(old(db.callers), phone, p.upsert, now)
      ensures db.sessions == old(db.sessions) && db.consents == old(db.consents)
    {
      var caller := db.GetCallerByPhone(phone);
      if caller.Some? && !IsStale(caller.value, now, DefaultTtlDays) {
        p := RecallCaller(phone, caller.value, rebuild, geocoder, validator, now);
      } else if caller.Some? {
        var trestle := identity(phone);
        if trestle.Some? {
          p := EnrichCaller(phone, trestle.value, caller, geocoder, validator, now);
        } else {
          p := Setup.FromRecord(caller.value, Setup.Refreshed);
        }
      } else {
        var trestle := identity(phone);
        if trestle.Some? {
          p := EnrichCaller(phone, trestle.value, None, geocoder, validator, now);
        } else {
          p := Setup.Unknown;
        }
      }
    }

    /**
     * `_per_call_config`: on the initial request of a call, find or enrich the
     * caller, set the global data, pick the greeting and remove the steps that
     * do not apply.  Any other request changes nothing.  `identity` is the
     * identity lookup, `rebuild` the lookup rebuilt from a stored payload.
     * The callback is handed a per-request copy of the agent, so each call
     * prunes the full step list: removals never carry over to the next call.
     */
    method PerCallConfig(body: Setup.Body, identity: string -> Option<Lookup>, rebuild: Value -> Option<Lookup>,
                         geocoder: Value -> Option<Geocode>, validator: PostalQuery -> Option<PostalResult>, now: int)
      returns (opening: Option<Setup.Opening>)
      requires Valid()
      modifies this, db
      ensures Valid() && db == old(db)
      ensures !Setup.IsSetupRequest(body) ==>
        opening.None? && Store() == old(Store()) && steps == old(steps) && globalData == old(globalData)
      ensures Setup.IsSetupRequest(body) ==>
        var phone := body.caller;
        var p := Setup.ProfileOf(Setup.CallerOf(old(db.callers), phone), identity(phone), rebuild,
                                 a => EnrichAddress(a, geocoder, validator), now);
        && opening == Some(Setup.OpeningOf(p))
        && globalData == Setup.GlobalDataOf(phone, p)
        && steps == Flow.Pruned(AllSteps, Setup.HasAddress(p), Setup.HasEmail(p))
        && db.callers == UpsertedIf(old(db.callers), phone, p.upsert, now)
        && db.sessions == old(db.sessions) && db.consents == old(db.consents) && sent == old(sent)
    {
      if !Setup.IsSetupRequest(body) {
        return None;
      }
      var phone := body.caller;
      var p := FindCaller(phone, identity, rebuild, geocoder, validator, now);
      globalData := Setup.GlobalDataOf(phone, p);
      opening := Some(Setup.OpeningOf(p));
      steps := AllSteps;
      PruneSteps(Setup.HasAddress(p), Setup.HasEmail(p));
    }

    /** `on_summary`: once the call data arrives, drop the call's session state, then every state idle for a day. */
    method OnSummary(rawData: Value, now: int)
      requires Valid()
      modifies db
      ensures Valid()
      ensures !Truthy(rawData) ==> Store() == old(Store())
      ensures Truthy(rawData) ==>
        var callId := Text(Field(rawData, "call_id", Str("unknown")));
        && db.sessions == StateStore.Pruned(old(db.sessions) - {callId}, now - 24 * 3600)
        && callId !in db.sessions
        && db.callers == old(db.callers) && db.consents == old(db.consents) && sent == old(sent)
    {
      if Truthy(rawData) {
        var callId := Text(Field(rawData, "call_id", Str("unknown")));
        db.DeleteCallState(callId);
        db.CleanupStaleStates(24, now);
      }
    }
  }
}
