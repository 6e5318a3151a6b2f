/**
 * The conversation's state machine (veronica.py `_define_state_machine`):
 * eleven steps, each offering at most one tool, with every transition forced
 * by a tool; and the per-call removal of the steps that do not apply.
 */
module Flow {

  import opened Wrappers

  /** The tools the agent registers, one handler each. */
  datatype Tool =
    | ConfirmIdentity | ProcessEmailConfirmation | InitiateEmailCollection | SubmitSpelledEmail
    | ValidateEmail | ProcessEmailConsent | ProcessSmsConsent | ProcessAddressConfirmation
    | SubmitAddress | ValidateAddress | ScheduleFollowup
  {
    function Name(): string {
      match this
      case ConfirmIdentity => "confirm_identity"
      case ProcessEmailConfirmation => "process_email_confirmation"
      case InitiateEmailCollection => "initiate_email_collection"
      case SubmitSpelledEmail => "submit_spelled_email"
      case ValidateEmail => "validate_email"
      case ProcessEmailConsent => "process_email_consent"
      case ProcessSmsConsent => "process_sms_consent"
      case ProcessAddressConfirmation => "process_address_confirmation"
      case SubmitAddress => "submit_address"
      case ValidateAddress => "validate_address"
      case ScheduleFollowup => "schedule_followup"
    }
  }

  /** The steps of the `default` context, in the order they are added. */
  datatype Step =
    | Greeting | EmailConfirm | EmailCollection | SmsConsent | VoiceSpelling | ZerobounceCheck
    | EmailSendConsent | ConfirmAddress | AddressCollection | AddressValidation | WrapUp
  {
    function Name(): string {
      match this
      case Greeting => "greeting"
      case EmailConfirm => "email_confirm"
      case EmailCollection => "email_collection"
      case SmsConsent => "sms_consent"
      case VoiceSpelling => "voice_spelling"
      case ZerobounceCheck => "zerobounce_check"
      case EmailSendConsent => "email_send_consent"
      case ConfirmAddress => "confirm_address"
      case AddressCollection => "address_collection"
      case AddressValidation => "address_validation"
      case WrapUp => "wrap_up"
    }

    /** `set_functions`: the one tool the step lets the model call; `wrap_up` allows none. */
    function Offers(): Option<Tool> {
      match this
      case Greeting => Some(ConfirmIdentity)
      case EmailConfirm => Some(ProcessEmailConfirmation)
      case EmailCollection => Some(InitiateEmailCollection)
      case SmsConsent => Some(ProcessSmsConsent)
      case VoiceSpelling => Some(SubmitSpelledEmail)
      case ZerobounceCheck => Some(ValidateEmail)
      case EmailSendConsent => Some(ProcessEmailConsent)
      case ConfirmAddress => Some(ProcessAddressConfirmation)
      case AddressCollection => Some(SubmitAddress)
      case AddressValidation => Some(ValidateAddress)
      case WrapUp => None
    }
  }

  /** The full step list before any per-call pruning. */
  const AllSteps: seq<Step> :=
    [Greeting, EmailConfirm, EmailCollection, SmsConsent, VoiceSpelling, ZerobounceCheck,
     EmailSendConsent, ConfirmAddress, AddressCollection, AddressValidation, WrapUp]

  /** The step whose `set_functions` names `t`, if any. */
  function StepOffering(t: Tool): Option<Step> {
    match t
    case ConfirmIdentity => Some(Greeting)
    case ProcessEmailConfirmation => Some(EmailConfirm)
    case InitiateEmailCollection => Some(EmailCollection)
    case SubmitSpelledEmail => Some(VoiceSpelling)
    case ValidateEmail => Some(ZerobounceCheck)
    case ProcessEmailConsent => Some(EmailSendConsent)
    case ProcessSmsConsent => Some(SmsConsent)
    case ProcessAddressConfirmation => Some(ConfirmAddress)
    case SubmitAddress => Some(AddressCollection)
    case ValidateAddress => Some(AddressValidation)
    case ScheduleFollowup => None
  }

  /**
   * Every step is on the list once; each step but `wrap_up` offers a tool no
   * other step offers, and every tool but `schedule_followup` is offered by a step.
   */
  lemma StepsAndTools()
    ensures forall s: Step :: s in AllSteps
    ensures forall i, j :: 0 <= i < j < |AllSteps| ==> AllSteps[i] != AllSteps[j]
    ensures forall s: Step :: s.Offers().None? <==> s == WrapUp
    ensures forall s: Step :: s.Offers().Some? ==> StepOffering(s.Offers().value) == Some(s)
    ensures forall t: Tool :: StepOffering(t).Some? ==> StepOffering(t).value.Offers() == Some(t)
    ensures forall t: Tool :: StepOffering(t).None? <==> t == ScheduleFollowup
  {
    forall s: Step
      ensures s in AllSteps
    {
      match s
      case Greeting => assert AllSteps[0] == s;
      case EmailConfirm => assert AllSteps[1] == s;
      case EmailCollection => assert AllSteps[2] == s;
      case SmsConsent => assert AllSteps[3] == s;
      case VoiceSpelling => assert AllSteps[4] == s;
      case ZerobounceCheck => assert AllSteps[5] == s;
      case EmailSendConsent => assert AllSteps[6] == s;
      case ConfirmAddress => assert AllSteps[7] == s;
      case AddressCollection => assert AllSteps[8] == s;
      case AddressValidation => assert AllSteps[9] == s;
      case WrapUp => assert AllSteps[10] == s;
    }
  }

  /** `remove_step(s)`: the list without `s`, the others in their order; removing an absent step changes nothing. */
  function Without(steps: seq<Step>, s: Step): (r: seq<Step>)
    ensures forall t :: t in r <==> t in steps && t != s
    ensures s !in steps ==> r == steps
    ensures |r| <= |steps|
  {
    if steps == [] then []
    else if steps[0] == s then Without(steps[1..], s)
    else [steps[0]] + Without(steps[1..], s)
  }

  /**
   * Removal works step by step and keeps the order: the steps left of a
   * concatenation are those left of each part, one part after the other.
   */
  lemma {:induction false} WithoutAppend(xs: seq<Step>, ys: seq<Step>, s: Step)
    ensures Without(xs + ys, s) == Without(xs, s) + Without(ys, s)
    decreases |xs|
  {
    if xs == [] {
      assert xs + ys == ys;
    } else {
      assert (xs + ys)[1..] == xs[1..] + ys;
      WithoutAppend(xs[1..], ys, s);
    }
  }

  /** Whether a step survives `_per_call_config`, given whether the call has an address and an email on file. */
  predicate Kept(s: Step, hasAddress: bool, hasEmail: bool) {
    && s != SmsConsent
    && (s == ConfirmAddress ==> hasAddress)
    && (s == EmailConfirm ==> hasEmail)
  }

  /** The three removals of `_per_call_config`, in its order. */
  function Pruned(steps: seq<Step>, hasAddress: bool, hasEmail: bool): seq<Step> {
    var a := if hasAddress then steps else Without(steps, ConfirmAddress);
    var b := Without(a, SmsConsent);
    if hasEmail then b else Without(b, EmailConfirm)
  }

  /** A step is left exactly when it was there and `Kept` says so. */
  lemma PrunedKeeps(steps: seq<Step>, hasAddress: bool, hasEmail: bool)
    ensures forall s :: s in Pruned(steps, hasAddress, hasEmail) <==> s in steps && Kept(s, hasAddress, hasEmail)
  {
  }

  /** Removing the same steps from an already pruned list changes nothing. */
  lemma PrunedIdempotent(steps: seq<Step>, hasAddress: bool, hasEmail: bool)
    ensures Pruned(Pruned(steps, hasAddress, hasEmail), hasAddress, hasEmail) == Pruned(steps, hasAddress, hasEmail)
  {
  }
}
