# Veronica call flow — a Dafny model

Veronica is a voice agent. It answers a phone call in character as a private investigator. It looks up who is calling, confirms the caller's identity, and collects and validates an email address and a home address. It records consents and sends one confirmation email. This project models the deterministic core behind those calls and proves properties of it:

- **The tool handlers** (`Tools`, `veronica.py`). Each handler is a function from the session state it loads, the call's `global_data`, the tool arguments and its collaborators' answers. It returns a `Turn`: the state it saves, the consent row it logs, the caller fields it upserts, the address it mails, and its reply. The reply holds the next step, the new global data and the text to read back.
- **The agent** (`Agent.VeronicaAgent`). It performs each handler's steps against the store. It also runs `_per_call_config`, which chooses the new, returning or refreshed path, builds the global data and prunes the step list. It runs `on_summary` as well. Each method is proved against the functions of `Tools` and `Setup`.
- **The per-call setup** (`Setup`): the caller profile from each path, the global data, the kind of opening and the geocode backfill.
- **The step graph** (`Flow`): the eleven steps, the tool each step offers, and the pruning.
- **The store** (`StateStore`, `state_store.py`). A class `Database` holds the three tables:
  - callers, with the whitelist and the COALESCE upsert;
  - call sessions, with load over defaults, save, delete and prune;
  - the append-only consent log.

  It also holds the TTL test on caller records.
- **The enrichment helpers** (`Enrichment`): `_enrich_address` (geocode, comma split, postal validation) and `_extract_trestle_extras`.
- **The reply parsers** (`ApiClients`, `api_clients.py`):
  - address formatting and email parsing;
  - the identity lookup's result;
  - the email verifier's classification;
  - the geocoder's top result;
  - the postal validator's normalized line;
  - the mail service's success test.
- **The read-back helpers** (`Readback`): the phonetic spelling of an address, the spoken-email normalizer, and the loose email-shape check of the spelling step.

JSON values are the datatype `Values.Value`. A Python `None` is `Null`. An ISO-8601 timestamp is `Time(seconds)`, and any other stored value counts as unparseable. The collaborators are function parameters returning `Option`: identity lookup, email verifier, geocoder, postal validator and mail service. The clock is an `int` parameter `now`.

## Model

| member | source | states |
|---|---|---|
| Readback.NatoWord | veronica.py:38-48 | every word of the phonetic table is non-empty and contains no space |
| Readback.SpokenToken | veronica.py:54-65 | every character other than a space becomes one non-empty token without spaces |
| Readback.NatoParts | veronica.py:51-67 | one token per character of the lower-cased address, in order |
| Readback.NatoSpellEmail | veronica.py:51-67 | the loop's output is the tokens joined by single spaces |
| Readback.NatoOneTokenPerChar | veronica.py:51-67 | splitting the read-back of a non-empty, space-free address on spaces gives back exactly one token per character |
| Readback.SplitJoin | veronica.py:67 | joining separator-free parts and splitting on the separator is the identity |
| Readback.Pieces | veronica.py:79-81 | the text the regular expressions work on, cut into whitespace-free words separated by gaps |
| Readback.MergeGaps | veronica.py:81-93 | merging adjacent gaps keeps every word whitespace-free |
| Readback.FillersToGaps | veronica.py:81 | position by position, each filler word becomes a gap and every other piece stays |
| Readback.DropFillers | veronica.py:81 | the filler substitution keeps every word whitespace-free |
| Readback.AtSign | veronica.py:83 | the "at sign" substitution keeps every word whitespace-free |
| Readback.SpacedAt | veronica.py:84 | the spaced " at " substitution keeps every word whitespace-free |
| Readback.DotBefore | veronica.py:86-87 | the "dot" and "period" substitutions keep every word whitespace-free |
| Readback.Rename | veronica.py:89-91 | position by position, each "dash", "hyphen" or "underscore" word becomes its symbol and every other piece stays |
| Readback.Render | veronica.py:93-94 | the final whitespace removal leaves no whitespace character |
| Readback.NormalizeSpokenEmail | veronica.py:70-94 | the normalized address contains no whitespace |
| Readback.NormalizeSpokenAddress | veronica.py:70-94 | "user at host dot tld", spoken in plain lower-case words that are not keywords, normalizes to exactly `user@host.tld` |
| Readback.MergeGapsIdle | veronica.py:81-93 | a transcript with no two gaps in a row is unchanged by gap merging |
| Readback.FillersIdle | veronica.py:81 | a transcript without "um", "uh", "like" or "so" is unchanged by the filler rule |
| Readback.AtSignIdle | veronica.py:83 | a transcript without "sign" or "atsign" is unchanged by the "at sign" rule |
| Readback.SpacedAtIdle | veronica.py:84 | a transcript without the word "at" is unchanged by the spaced " at " rule |
| Readback.DotBeforeIdle | veronica.py:86-87 | a transcript without the keyword is unchanged by its dot rule |
| Readback.DotBeforeAfter | veronica.py:86-87 | the dot rule rewrites each part independently: a prefix without the keyword passes through and the rest is rewritten on its own |
| Readback.RenameIdle | veronica.py:89-91 | a transcript without the keyword is unchanged by its rename |
| Readback.EmailShapeOneAt | veronica.py:896 | a string of the checked shape has exactly one `@`, and it is not the first character |
| Readback.OnlyAt | veronica.py:896 | an `@` with no `@` or whitespace on either side is the only one |
| ApiClients.PresentParts | api_clients.py:22-29 | at most one part per component key, and there are none iff every component is empty or missing |
| ApiClients.PresentPartsSound | api_clients.py:22-29 | every kept part is the text of a truthy component |
| ApiClients.PresentPartsComplete | api_clients.py:22-29 | the text of every truthy component is kept |
| ApiClients.PresentPartsAppend | api_clients.py:22-29 | the selection is per key and keeps the key order: the parts of a concatenation of keys are the concatenation of the parts |
| ApiClients.FormatAddress | api_clients.py:18-29 | a result is never empty; a non-dict gives its text iff it is truthy; a dict gives something only if some component is present |
| ApiClients.FormatAddressJoined | api_clients.py:22-29 | for every dict with a present component, the address is the present components' texts, in key order, joined with ", " |
| ApiClients.FormatAddressNothing | api_clients.py:22-29 | every dict whose five components are all empty or missing gives no address |
| ApiClients.EmailOf | api_clients.py:38-44 | a string entry contributes itself iff non-empty; a dict its truthy `email_address`, else its truthy `address`, else nothing; any other entry nothing |
| ApiClients.EmailsIn | api_clients.py:36-45 | a list gives at most one truthy address per entry |
| ApiClients.ParsedEmails | api_clients.py:32-46 | a non-empty string gives itself alone, a value that is neither a string nor a list gives nothing, and every address is truthy |
| ApiClients.ParseEmails | api_clients.py:32-46 | the append loop computes `ParsedEmails` |
| ApiClients.EmailsOfStrings | api_clients.py:43-44 | a list of non-empty strings is kept unchanged, in order |
| ApiClients.EmailsInAppend | api_clients.py:38-45 | parsing is per entry: the addresses of a concatenation are the concatenation of the addresses |
| ApiClients.AddressEntry | api_clients.py:145-155 | an entry exists iff the address formats, and then its "formatted" field is that text |
| ApiClients.AddressEntries | api_clients.py:142-156 | at most one entry per address, each with a "formatted" field |
| ApiClients.FirstAddressEntry | api_clients.py:157-158 | the first entry is the one of the first address that formats |
| ApiClients.NoAddressEntries | api_clients.py:142-158 | when no address formats, there are no entries |
| ApiClients.AltPhones | api_clients.py:164-169 | at most one alternate phone per input entry |
| ApiClients.AltPhoneFields | api_clients.py:166-167 | an alternate phone has exactly "number" and "type"; the number is `phoneNumber` when truthy, else `phone_number`; the type is lower-case text, "" when neither line-type key is truthy |
| ApiClients.AltPhonesOfDicts | api_clients.py:165-169 | a list of dicts gives one alternate phone per entry, in order |
| ApiClients.AltPhonesNone | api_clients.py:169 | entries that are not dicts give no alternate phone |
| ApiClients.AltPhonesAppend | api_clients.py:165-169 | the filter is per entry: a concatenation gives the concatenation |
| ApiClients.AddressList | api_clients.py:142-156 | the loop computes `AddressEntries` |
| ApiClients.OwnerSummaries | api_clients.py:172-180 | one summary per owner, in input order |
| ApiClients.TrestleReversePhone | api_clients.py:75-182 | the line type is lower-cased; SMS eligibility holds iff it is "mobile"; validity, carrier and the prepaid and commercial flags are the reply's; the owner count is the number of owners; the raw reply is kept; with no owners every owner and contact field is unset; otherwise the first owner's name, first, middle and last names, alternate names, age range, gender, type, confidence score and link date, its parsed emails (the first one is the candidate), its formatted addresses (the first one is the candidate, and its lat, lng and accuracy are the lookup's), its alternate phones, and one summary per owner |
| ApiClients.ZeroBounceVerdict | api_clients.py:211-226 | status and sub-status are lower-cased; valid iff status is "valid"; invalid iff status is "invalid" or the sub-status is one of the four rejected ones |
| ApiClients.GeocodeOf | api_clients.py:251-265 | nothing iff there are no results; otherwise the top result's formatted address, its geometry's latitude and longitude, its location type as confidence, and the top result as raw |
| ApiClients.PostalResultOf | api_clients.py:296-313 | no candidate gives code "N", no normalized line and an empty raw list; otherwise the first candidate's `dpv_match_code` when present, else "N", its components and itself as raw; the line is `delivery_line_1`, plus ", " and `last_line` when that is non-empty |
| ApiClients.SendResultOf | api_clients.py:324-360 | nothing iff not configured; a transport error gives failure with its message; success iff `ErrorCode` is zero, and then it carries the message id and no error; on failure, the service's message and no id |
| Enrichment.Components | veronica.py:412 | one stripped component per comma-separated part |
| Enrichment.StateWords | veronica.py:417-418 | the words after "USA" is removed are non-empty and contain no whitespace |
| Enrichment.PostalQueryOf | veronica.py:412-421 | a query exists iff there are at least three comma-separated parts; it holds street, city, the first word as state ("" if none) and the second word as zip code if there is one |
| Enrichment.PostalCheck | veronica.py:412-422 | the validator is consulted only for a formatted address that splits into a query |
| Enrichment.EnrichAddress | veronica.py:385-433 | all five values unset for an empty address or no geocode; otherwise the geocoder's coordinates and confidence unchanged, the validator's code when it answered, and its normalized line replacing the geocoder's only when that line is non-empty |
| Enrichment.EnrichSkipsValidator | veronica.py:414-431 | with fewer than three parts the validator's answer cannot affect the result |
| Enrichment.EnrichCoordinates | veronica.py:396-433 | a match code appears only after a geocode, and the latitude is the geocoder's |
| Enrichment.TrestleExtras | veronica.py:97-104 | no lookup gives no extras |
| Enrichment.ExtrasOwner | veronica.py:108-124 | the first, middle and last names, alternate names, age range, gender and owner type are each set iff truthy, and then hold the lookup's value |
| Enrichment.ExtrasPhone | veronica.py:126-134 | the carrier is set iff truthy; the prepaid and commercial flags and the confidence score iff they are not `None`; each holds the lookup's value |
| Enrichment.ExtrasContacts | veronica.py:136-150 | the email, address and alternate-phone lists are set iff non-empty; the owner count and the owner summaries iff there is more than one owner; each holds the lookup's value |
| Enrichment.ExtrasKeys | veronica.py:97-153 | the extras only ever carry the sixteen lookup keys |
| Flow.StepsAndTools | veronica.py:254-381 | the eleven steps are distinct; every step but `wrap_up` offers exactly one tool; the two maps are inverse; only `schedule_followup` belongs to no step |
| Flow.Without | veronica.py:692-710 | removing a step keeps exactly the other steps and leaves the list alone if the step is absent |
| Flow.WithoutAppend | veronica.py:692-710 | removal keeps the order of the other steps: it distributes over concatenation |
| Flow.PrunedKeeps | veronica.py:689-710 | a step survives pruning iff it was present and is not `sms_consent`, not `confirm_address` without an address, and not `email_confirm` without an email |
| Flow.PrunedIdempotent | veronica.py:689-710 | pruning twice is pruning once |
| StateStore.Stored | state_store.py:101-114 | SQLite stores a boolean as an integer, and only `None` as NULL |
| StateStore.Filtered | state_store.py:88-94 | exactly the whitelisted columns are kept, each as stored |
| StateStore.InsertedRow | state_store.py:99-114 | a first insert stores the phone, both timestamps and every given whitelisted value; the columns not given are NULL, except `sms_eligible`, which defaults to 0 |
| StateStore.MergedRow | state_store.py:106-107 | on conflict each given non-null field overwrites, every other column is kept, and `updated_at` is the new time |
| StateStore.UpsertedRow | state_store.py:99-114 | the phone and `created_at` never change on conflict, `updated_at` is the new time, and every given non-null field is stored |
| StateStore.Upserted | state_store.py:86-117 | only that phone's row changes; it exists afterwards; `created_at` is kept and `updated_at` is the new time |
| StateStore.UpsertIgnoresUnknownFields | state_store.py:88-94 | fields outside the whitelist have no effect |
| StateStore.MergedPointwise | state_store.py:106-107 | the column-by-column COALESCE followed by the new `updated_at` is the merge |
| StateStore.MergeSettled | state_store.py:106-107 | merging fields that the row already holds, at the same time, changes nothing |
| StateStore.UpsertIdempotent | state_store.py:86-117 | the same upsert at the same time, applied twice, is applied once |
| StateStore.Coalesce | state_store.py:106 | the loop over the given fields computes `COALESCE(excluded, existing)` for each column |
| StateStore.MergeRow | state_store.py:106-107 | the loop and the timestamp give `MergedRow` |
| StateStore.UpsertRow | state_store.py:99-114 | the insert-or-merge gives `UpsertedRow` |
| StateStore.IsStale | state_store.py:122-131 | a missing or unparseable enrichment time is stale; otherwise stale iff strictly more than the TTL has passed |
| StateStore.StaleBoundary | state_store.py:129 | a record exactly at the TTL is not stale, and one second later it is |
| StateStore.StaleMonotone | state_store.py:122-131 | once stale, always stale later |
| StateStore.Loaded | state_store.py:163-175 | no row gives the defaults; otherwise the stored keys override the defaults, and stored keys outside them are kept |
| StateStore.Saved | state_store.py:178-194 | the state is replaced and `updated_at` is set; on conflict the original `created_at` and phone are kept; other sessions do not change |
| StateStore.SaveThenLoad | state_store.py:163-194 | loading a just-saved state gives it over the defaults, or exactly it when it has every default key |
| StateStore.SaveTwice | state_store.py:178-194 | a second save at the same time overwrites the first |
| StateStore.DeleteThenLoad | state_store.py:163-205 | after a delete the state loads as the defaults, and a second delete changes nothing |
| StateStore.Pruned | state_store.py:208-215 | exactly the sessions with `updated_at` at or after the cutoff remain, unchanged |
| StateStore.History | state_store.py:240-250 | only that phone's rows, at most as many as the log holds |
| StateStore.HistoryRows | state_store.py:240-250 | every returned row is in the log, and every row of the log for that phone is returned |
| StateStore.HistoryNewestFirst | state_store.py:245 | over a chronological log, the history is newest first |
| StateStore.Database.constructor | state_store.py:19-57 | the three tables start empty |
| StateStore.Database.GetCallerByPhone | state_store.py:74-83 | a row iff the phone is stored, and then that row |
| StateStore.Database.UpsertCaller | state_store.py:86-117 | the callers table becomes `Upserted`, the stored row is returned, and the other tables do not change |
| StateStore.Database.LoadCallState | state_store.py:163-175 | the result is `Loaded` |
| StateStore.Database.SaveCallState | state_store.py:178-194 | the sessions become `Saved`, and nothing else changes |
| StateStore.Database.DeleteCallState | state_store.py:197-205 | exactly that session is removed |
| StateStore.Database.CleanupStaleStates | state_store.py:208-220 | the sessions become `Pruned` at `now - hours * 3600` |
| StateStore.Database.LogConsent | state_store.py:225-237 | exactly one row is appended with the next id, 1 or 0 for the answer, and the time; earlier rows and the other tables do not change |
| StateStore.Database.GetConsentHistory | state_store.py:240-250 | the loop computes `History` |
| Tools.Bump | veronica.py:897 | the counter goes up by one, and only that key is added |
| Tools.FollowUp | veronica.py:901-902 | follow-up is flagged with the given reason |
| Tools.ConfirmIdentity | veronica.py:751-785 | routes to `email_confirm` iff a candidate email is present, whatever the answer; the answer is saved; a mismatch is flagged only when not confirmed; the name goes to global data only when not confirmed and given, and is then also saved as the owner name |
| Tools.ProcessEmailConfirmation | veronica.py:805-836 | confirmed: the candidate becomes the working email, saved with source "trestle_confirmed", and the route is `zerobounce_check`; otherwise the state is saved unchanged, both emails are cleared and the route is `email_collection` |
| Tools.InitiateEmailCollection | veronica.py:846-855 | always `voice_spelling`, with nothing saved |
| Tools.SpelledEmail | veronica.py:886-893 | the address the handler works with has no whitespace |
| Tools.Misspelt | veronica.py:896-919 | one more spelling attempt; `wrap_up` with follow-up flagged for "email_not_captured" iff this makes three, otherwise `voice_spelling` |
| Tools.Spelt | veronica.py:921-940 | unconfirmed: nothing saved, no step change, and the phonetic read-back; confirmed: working email and source saved, the attempt counted, the working email set in the global data, and the route is `zerobounce_check` |
| Tools.SubmitSpelledEmail | veronica.py:885-940 | a normalized address of the wrong shape is `Misspelt`, otherwise `Spelt` |
| Tools.Verdicted | veronica.py:979-1035 | the status is saved; valid gives `email_send_consent` with follow-up untouched; neither valid nor invalid flags follow-up for "email_validation_failed" and still `email_send_consent`; both put the address in the global data as candidate and working email; the attempt counter changes iff the verdict is invalid and not valid, and then `wrap_up` with follow-up "email_validation_failed" iff it reaches two, else `email_collection` with the working email cleared from the global data |
| Tools.ValidateEmail | veronica.py:951-1035 | no email gives `email_collection`; a failed verifier gives "api_error", `email_send_consent`, and the address as candidate and working email in the global data; otherwise `Verdicted` |
| Tools.ProcessEmailConsent | veronica.py:1055-1132 | exactly one email-send consent row with the answer; the answer is saved; mail is sent iff consented and an email resolves; the caller upsert happens iff in addition the phone is known; the next step depends only on whether a candidate address is present |
| Tools.ProcessSmsConsent | veronica.py:1152-1170 | one SMS consent row and the answer saved; always `voice_spelling` |
| Tools.ProcessAddressConfirmation | veronica.py:1191-1220 | "confirmed" saves the candidate address and goes to `address_validation`; "denied" goes to `address_collection`; anything else to `wrap_up` |
| Tools.AddressHeard | veronica.py:1266-1281 | unconfirmed: the geocoded (or raw) address is held pending and read back, with no step change and no attempt counted |
| Tools.AddressTaken | veronica.py:1283-1293 | confirmed: the address is collected, one attempt is counted, and the route is `address_validation` |
| Tools.SubmitAddress | veronica.py:1248-1293 | an empty address stays in `address_collection`; otherwise `AddressHeard` or `AddressTaken` on the geocoded form, falling back to the raw text |
| Tools.DpvRejected | veronica.py:1361-1387 | one more address attempt; `wrap_up` with follow-up flagged for "address_validation_failed" iff that makes two, otherwise `address_collection` with the collected address cleared |
| Tools.AddressChecked | veronica.py:1313-1387 | the caller upsert happens iff the phone is known; no normalized address gives "geocode_error", `wrap_up` and the raw address as the global data's candidate address; an accepted code (Y, S, D or none) gives "valid" and `wrap_up` with the normalized address; any other code is `DpvRejected` |
| Tools.ValidateAddress | veronica.py:1302-1387 | no address gives `address_collection`; otherwise `AddressChecked` on the enriched address |
| Tools.ScheduleFollowup | veronica.py:1415-1427 | follow-up is flagged with the given reason (default "unspecified") and the route is `wrap_up` |
| Tools.SpellingRoutes | veronica.py:885-940 | spelling only stays, retries, gives up or moves to `zerobounce_check` |
| Tools.EmailCheckRoutes | veronica.py:951-1035 | email validation only leads to `email_collection`, `email_send_consent` or `wrap_up` |
| Tools.AddressCheckRoutes | veronica.py:1302-1387 | address validation only leads to `address_collection` or `wrap_up` |
| Tools.RoutesStayInPlan | veronica.py:689-710 | no handler routes back to the greeting or to a step the pruning removed |
| Tools.SpellingGivesUpOnThird | veronica.py:896-910 | from a fresh session, three misspellings retry, retry, then give up with "email_not_captured" |
| Tools.SavedAttempts | state_store.py:163-194 | a saved counter loads back unchanged |
| Tools.EmailGivesUpOnSecond | veronica.py:1010-1035 | from a fresh session, two invalid verdicts retry once (clearing the working email), then give up with "email_validation_failed" |
| Tools.InvalidVerdict | veronica.py:1010-1014 | an invalid verdict counts one attempt and keeps the working email |
| Tools.SpokenAddressNoRetry | veronica.py:1283-1377 | a confirmed spoken address counts one attempt, so its first postal rejection already gives up |
| Tools.ConfirmOnFile | veronica.py:1198-1208 | confirming the address on file saves it with source "confirmed_on_file" |
| Tools.FirstRejectionRetries | veronica.py:1361-1387 | with no attempt counted, a postal rejection retries |
| Tools.OnFileAddressRetries | veronica.py:1198-1387 | an address confirmed on file counts no attempt, so its first rejection retries |
| Agent.LoggedIf | state_store.py:225-237 | a logged consent appends one row with the next id; the log stays well formed |
| Agent.SavedIf | state_store.py:178-194 | a saved state loads back over the defaults; other sessions do not change |
| Agent.UpsertedIf | state_store.py:86-117 | an upsert changes only that phone's row and keeps the table well formed |
| Agent.After | veronica.py:714-1427 | performing a turn keeps the callers table well formed and appends the mailed address, if any |
| Agent.SaveOnly | veronica.py:1157-1158 | a turn that only saves changes only the sessions |
| Agent.NoEffect | veronica.py:846-855 | a turn with no effects changes nothing |
| Agent.CallContext | veronica.py:717-726 | the call id defaults to "unknown"; missing global data gives an empty map and no phone |
| Agent.VeronicaAgent.constructor | veronica.py:185-254 | the full step list, no global data, nothing sent |
| Agent.VeronicaAgent.ConfirmIdentity | veronica.py:751-785 | reply and store are those of `Tools.ConfirmIdentity` |
| Agent.VeronicaAgent.ProcessEmailConfirmation | veronica.py:805-836 | reply and store are those of `Tools.ProcessEmailConfirmation` |
| Agent.VeronicaAgent.InitiateEmailCollection | veronica.py:846-855 | the reply is that of `Tools.InitiateEmailCollection` |
| Agent.VeronicaAgent.FlagFollowUp | veronica.py:900-903 | saves the state with follow-up flagged |
| Agent.VeronicaAgent.RetrySpelling | veronica.py:896-919 | the reply and saved state of `Tools.Misspelt` |
| Agent.VeronicaAgent.TakeSpelling | veronica.py:930-940 | the reply and saved state of a confirmed `Tools.Spelt` |
| Agent.VeronicaAgent.SubmitSpelledEmail | veronica.py:885-940 | reply and store are those of `Tools.SubmitSpelledEmail` |
| Agent.VeronicaAgent.RecordVerdict | veronica.py:979-1035 | the reply and saved state of `Tools.Verdicted` |
| Agent.VeronicaAgent.ValidateEmail | veronica.py:951-1035 | reply and store are those of `Tools.ValidateEmail` |
| Agent.VeronicaAgent.SendConfirmation | veronica.py:1070-1117 | the upsert when a phone and email are known, the single send, and the message id saved only on success |
| Agent.VeronicaAgent.ProcessEmailConsent | veronica.py:1055-1132 | reply, store and sent mail are those of `Tools.ProcessEmailConsent` |
| Agent.VeronicaAgent.ProcessSmsConsent | veronica.py:1152-1170 | reply and store are those of `Tools.ProcessSmsConsent` |
| Agent.VeronicaAgent.ProcessAddressConfirmation | veronica.py:1191-1220 | reply and store are those of `Tools.ProcessAddressConfirmation` |
| Agent.VeronicaAgent.KeepPendingAddress | veronica.py:1266-1281 | the reply and saved state of `Tools.AddressHeard` |
| Agent.VeronicaAgent.TakeAddress | veronica.py:1283-1293 | the reply and saved state of `Tools.AddressTaken` |
| Agent.VeronicaAgent.SubmitAddress | veronica.py:1248-1293 | reply and store are those of `Tools.SubmitAddress` |
| Agent.VeronicaAgent.RejectAddress | veronica.py:1361-1387 | the reply and saved state of `Tools.DpvRejected` |
| Agent.VeronicaAgent.CheckAddress | veronica.py:1313-1387 | the reply, saved state and caller upsert of `Tools.AddressChecked` |
| Agent.VeronicaAgent.ValidateAddress | veronica.py:1302-1387 | reply and store are those of `Tools.ValidateAddress` over `_enrich_address` |
| Agent.VeronicaAgent.ScheduleFollowup | veronica.py:1415-1427 | reply and store are those of `Tools.ScheduleFollowup` |
| Agent.VeronicaAgent.RemoveStep | veronica.py:692-710 | the step list loses that step, and nothing else changes |
| Agent.VeronicaAgent.PruneSteps | veronica.py:689-710 | the three removals give `Flow.Pruned` of the list they start from |
| Agent.VeronicaAgent.RecallCaller | veronica.py:474-548 | the returning profile is `Setup.Recalled`, and the backfill upsert happens iff it carries one |
| Agent.VeronicaAgent.EnrichCaller | veronica.py:549-632 | the looked-up profile is `Setup.LookedUp`, and its upsert is performed |
| Agent.VeronicaAgent.FindCaller | veronica.py:459-636 | the profile is `Setup.ProfileOf` the stored record and the lookup, and its upsert is performed |
| Agent.VeronicaAgent.PerCallConfig | veronica.py:437-710 | nothing changes for a tool, post-prompt or phone-less request; otherwise the opening, the global data, the full step list pruned for the chosen profile, and that profile's caller upsert |
| Agent.VeronicaAgent.OnSummary | veronica.py:1443-1464 | with raw data, that call's session is deleted and sessions idle for 24 hours are pruned; otherwise nothing changes |
| Setup.CallerOf | veronica.py:459 | a record iff the phone is stored |
| Setup.FromRecord | veronica.py:476-485 | the stored values, with the validated email preferred and the normalized address preferred |
| Setup.Recalled | veronica.py:474-548 | source "returning"; the stored name, email, line type and SMS eligibility; extras only from a stored raw lookup, using only the lookup keys; the normalized address is re-enriched iff a raw address has no latitude; a backfill iff in addition the geocoder gives a latitude, and then the five geocode columns; the candidate address is the stored normalized one, else the stored raw one, preceded by the backfilled normalized one after a backfill |
| Setup.LookedUp | veronica.py:549-632 | "new" or "refreshed"; a new caller takes the lookup's name, email, address and line type; a stale record takes each lookup value when truthy, else the stored one; SMS eligibility and extras from the lookup; the upsert writes all thirteen columns |
| Setup.ProfileOf | veronica.py:459-636 | no extras key collides with a core global-data key |
| Setup.CoreData | veronica.py:649-657 | exactly the seven core keys; the name defaults to "Unknown", the line type to "unknown"; the address shown is the normalized address, else the candidate address |
| Setup.GlobalDataOf | veronica.py:649-660 | the core keys plus the extras, each with its value |
| Setup.ExtrasAreNotCore | veronica.py:659 | no lookup extra overwrites a core key |
| Setup.OpeningOf | veronica.py:667-687 | welcome-back iff returning with a name; unknown-caller iff no name |
| Setup.PathChoice | veronica.py:474-602 | "new" iff no record; "returning" iff a fresh record; "refreshed" iff a stale one |
| Setup.FreshIgnoresLookup | veronica.py:474-548 | a fresh record's profile does not depend on the identity lookup |
| Setup.StaleFallback | veronica.py:585-596 | a stale record with a failed lookup keeps the stored values, with no upsert and no extras |
| Setup.StaleLookupWins | veronica.py:557-584 | on a stale record every truthy lookup value wins over the stored one, and the record is upserted |
| Setup.PlanMatchesGlobalData | veronica.py:649-710 | the pruning sees an address or email iff the global data shows one |
| Setup.BackfillOnce | veronica.py:532-544 | after a backfill the record has a latitude and the same enrichment time, so the next call does not backfill again |
| Setup.BackfilledRow | veronica.py:538-544 | the backfill merge sets a latitude and leaves `last_enriched_at` alone |

## Left out

- HTTP, API keys, timeouts and the configuration module. Each collaborator is a function parameter whose `None` answer stands for "not configured or failed".
- SignalWire SDK prose: prompts, fillers, the text of each reply, the greeting's wording and `_render_swml`. Only the kind of opening (`Setup.Opening`), the next step, the global-data update and the read-back text are modelled.
- Logging, `_log_trestle`, and the file of call data that `on_summary` writes.
- SQLite plumbing and JSON encoding. The session blob and `trestle_raw` are stored as values. Re-reading the stored raw lookup in the returning path is a parameter `rebuild`, so the exception guard around it is not modelled.
- Wall-clock time. Each invocation takes one `now`, and ISO-8601 text is `Time(seconds)`. Two `datetime.now()` calls in one handler yield the same value.
- The configurable TTLs are never passed to the staleness test, so the model uses the default of 180 days.
- Concurrency between calls on the same phone.
- Floating-point latitudes and longitudes. They are opaque `Value`s, and truthiness treats zero as absent, as the source does.
- Values.Text gives "" for a list, dict or timestamp rather than its Python `str`. ApiClients.FormatAddress therefore returns `None` for a non-dict list, where the source returns its printed form.
- ApiClients.TrestleReversePhone reads a non-list `owners`, `current_addresses` or `alternate_phones` as empty, a first owner that is not a dict as one without fields, a truthy non-string `line_type` through its text (`Values.Text`), and a truthy `lat_long` that is not a dict as one with no latitude, longitude or accuracy (each `None`). The source raises on these.
- Tools.Count reads a counter stored as an explicit `None` (or any non-number) as 0, where the source's `state.get(key, 0) + 1` raises.
- Upper and lower case are ASCII only. No Unicode case mapping is modelled.
- Readback.NormalizeSpokenEmail works on whitespace-separated words. A keyword matches a whole word, which approximates the regular expressions' word boundaries. Its own contract states only that the output has no whitespace; the full rewrite is proved for the plain "user at host dot tld" form in `Readback.NormalizeSpokenAddress`.
- Global data and session keys are fixed enumerations (`Globals.Global`, `StateStore.Key`). Keys a request carries beyond these are not modelled. A non-string `call_id` is read through its text.
- Tools.TextArg: a text argument that is not a string makes the source's `.strip()` raise; the model reads it as "" and the handler goes on. The error the platform then reports is not modelled.
- Enrichment.TrestleExtras: its own contract states only the empty case. The keys it may set are proved in `Enrichment.ExtrasKeys`, and each key's condition and value in `Enrichment.ExtrasOwner`, `Enrichment.ExtrasPhone` and `Enrichment.ExtrasContacts`.
- Enrichment.PostalCheck: a geocode without a string `formatted_address` makes the source's `.split` raise at veronica.py:412, so `validate_address` fails with an error. The model skips postal validation instead: Enrichment.EnrichAddress returns the geocoder's values with no match code, and when the formatted address is missing altogether Tools.AddressChecked answers "geocode_error".
- ApiClients.FormatAddress: a truthy component that is not a string (a number, a list) makes the source's `", ".join` raise a TypeError; the model joins its text instead, which is "" for a list or dict.
- Agent.VeronicaAgent.PerCallConfig: the platform hands `_per_call_config` a per-request copy of the agent, so the model restores the full step list before pruning. A shared step graph mutated across calls is not modelled.
- The step graph's prompts and the SDK's `remove_step` errors. A step is removed from a list, and removing an absent step is a no-op.
