/**
 * The call's `global_data`: what `_per_call_config` hands the platform at the
 * start of the call, and what each tool request carries back.  Its keys are a
 * fixed set; `Name` gives each key as it appears in the dict.
 */
module Globals {

  import opened Values

  /**
   * The keys: the seven core fields, the identity lookup's extras, and the
   * two the tools add while the call goes on.
   */
  datatype Global =
    | CallerPhone | OwnerName | CandidateEmail | CandidateAddress | LineType
    | SmsEligible | RecordSource | Firstname | Lastname | Middlename
    | AlternateNames | AgeRange | Gender | OwnerType | Carrier
    | IsPrepaid | IsCommercial | ConfidenceScore | AllEmails | AllAddresses
    | AlternatePhones | OwnerCount | AllOwnersSummary | WorkingEmail | CollectedAddress
  {
    function Name(): string {
      match this
      case CallerPhone => "caller_phone"
      case OwnerName => "owner_name"
      case CandidateEmail => "candidate_email"
      case CandidateAddress => "candidate_address"
      case LineType => "line_type"
      case SmsEligible => "sms_eligible"
      case RecordSource => "record_source"
      case Firstname => "firstname"
      case Lastname => "lastname"
      case Middlename => "middlename"
      case AlternateNames => "alternate_names"
      case AgeRange => "age_range"
      case Gender => "gender"
      case OwnerType => "owner_type"
      case Carrier => "carrier"
      case IsPrepaid => "is_prepaid"
      case IsCommercial => "is_commercial"
      case ConfidenceScore => "confidence_score"
      case AllEmails => "all_emails"
      case AllAddresses => "all_addresses"
      case AlternatePhones => "alternate_phones"
      case OwnerCount => "owner_count"
      case AllOwnersSummary => "all_owners_summary"
      case WorkingEmail => "working_email"
      case CollectedAddress => "collected_address"
    }
  }

  /** The global data of one call. */
  type GlobalData = map<Global, Value>
}
