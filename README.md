# Annuity application assistant — a Dafny model of its core

The system collects the data of an annuity application through a conversation
with a language model. The model calls declared tools that extract, confirm and
validate form fields. A backend stores applications against carrier schemas and
validates them, and data sources (a CRM, statements and suitability guidelines in
S3, phone calls placed through Retell) fill in what is already known.

This project models the core of that system in Dafny and proves properties of the
model. There is one module per source file:

- `Values` (values.dfy) holds the shared vocabulary:
  - the dynamically typed values the services pass around, with Python's `==`, `.get`, `strip`, `lower` and string ordering;
  - a `Primitives` record of total functions for what the model takes as given: regex matching, number and date parsing, JSON, uuid and the clock.
- `Conversation` (conversation.dfy) is the conversation state: tracked fields, their status and phase, and the visibility-condition evaluator. In that evaluator, NOT means "none of the children holds".
- `FieldValidation` (field_validation.dfy) is the per-type validation of a candidate value in the AI service.
- `Extraction` (extraction.dfy) builds the tools offered to the language model in each phase.
- `ConversationService` (conversation_service.dfy) is the session engine:
  - session creation;
  - the turn handler;
  - the processor of the extract and confirm tool calls;
  - phase advancement;
  - submission.
  The sessions are a class whose methods change them in place.
- `PrefillAgent` (prefill_agent.dfy) is the bounded pre-fill agent loop and its tool dispatcher.
- `SchemaAdapter` (schema_adapter.dfy) converts an external eApp schema into steps, fields, validation rules and conditions.
- `ToolAdapter` (tool_adapter.dfy) re-nests tool definitions for the voice channel.
- `BackendValidators` and `BackendValidation` (backend_validators.dfy, backend_validation.dfy) are the backend's field validator, its condition evaluator, and whole-application validation.
- `ApplicationService` (application_service.dfy) is the application lifecycle: create, save, validate and submit, over a store class.
- `CarrierSchema` (carrier_schema.dfy) looks up the latest schema per carrier and lists the schemas.
- `RedtailCrm`, `S3Statements` and `S3Suitability` (redtail_crm.dfy, s3_statements.dfy, s3_suitability.dfy) are the data sources:
  - the Redtail CRM contact mapping and client listing;
  - the latest annual statement;
  - the suitability payload and decision.
- `Retell` (retell.dfy) is the phone-call routes over a class holding the table of call records.

Loops in the source are methods with loop invariants, each proved against a specification function. State that the source updates in place is held in classes whose methods state the new state. Everything else is functions and lemmas.

## Model

| member | source | states |
|---|---|---|
| Values.Strip | ai-service/app/services/datasources/s3_suitability.py:96 | str.strip() leaves no whitespace at either end, is no longer than its input and is a substring of it |
| Values.StripTrimsEnds | ai-service/app/services/datasources/s3_suitability.py:96 | str.strip() removes only a run of whitespace at each end: the result is the text between two indices with nothing but whitespace outside them |
| Values.StripDropsTrailingSpace | ai-service/app/services/datasources/s3_suitability.py:103 | a trailing whitespace character does not change what strip leaves |
| Values.Lower | ai-service/app/services/datasources/redtail_crm.py:40 | lower-casing keeps the length and maps each character on its own |
| Values.IndexOf | ai-service/app/services/datasources/s3_suitability.py:99 | str.index finds the first occurrence, and there is none exactly when the character does not occur |
| Values.GetFindsKey | ai-service/app/routes/retell.py:89 | a dict lookup finds a key exactly when the dict has it, and returns that key's entry |
| Values.StrLtIrreflexive | ai-service/app/services/datasources/s3_statements.py:67 | no key sorts before itself |
| Values.StrLtTransitive | ai-service/app/services/datasources/s3_statements.py:67 | the string order used to sort keys is transitive |
| Values.StrLtTotal | ai-service/app/services/datasources/s3_statements.py:67 | any two distinct keys are ordered one way or the other |
| Values.StrLtAsymmetric | ai-service/app/services/datasources/s3_statements.py:67 | two keys are never each below the other |
| ToolAdapter.ConvertOneFails | ai-service/app/services/tool_adapter.py:19-28 | a tool converts exactly when it has "name", "description" and "input_schema"; otherwise the KeyError names the first missing key in the order the dict literal reads them |
| ToolAdapter.ConvertOneKeepsTool | ai-service/app/services/tool_adapter.py:19-28 | the converted spec has the single key "toolSpec" and carries the tool's name, description and input schema (under inputSchema.json) unchanged; reading it back gives those three values |
| ToolAdapter.RoundTrip | ai-service/app/services/tool_adapter.py:7-28 | an Anthropic tool with exactly the three keys survives conversion to a Nova Sonic spec and back |
| ToolAdapter.ConvertsEveryTool | ai-service/app/services/tool_adapter.py:7-16 | the list converts exactly when every tool does, giving one spec per tool in order; otherwise the error is that of the first tool that fails and every earlier tool converted |
| ToolAdapter.ConvertOne | ai-service/app/services/tool_adapter.py:19-28 | the only exception is KeyError; a converted tool is a dict whose single key is "toolSpec", holding a dict |
| ToolAdapter.AnthropicToNovaSonic | ai-service/app/services/tool_adapter.py:7-16 | the only exception is KeyError; a converted list has one spec per tool, each keyed by "toolSpec" alone |
| BackendValidation.ValidateApplication | backend/app/services/validation_service.py:4-26 | the loop over steps returns exactly the errors of every visible step in order, valid iff that list is empty; a malformed schema fails with the error the first bad entry raises |
| BackendValidation.ValidateStep | backend/app/services/validation_service.py:12-24 | one pass of the outer loop extends the error list by that step's errors, or by nothing when the step's conditions fail |
| BackendValidation.ValidateFields | backend/app/services/validation_service.py:17-24 | the inner loop extends the error list by each field entry's errors in field order, stopping at the first entry that raises |
| BackendValidation.ValidateEntry | backend/app/services/validation_service.py:19-24 | one field entry: skipped when its conditions fail, otherwise validated against the data value under its field_id (None when absent) |
| BackendValidation.HiddenStepHasNoErrors | backend/app/services/validation_service.py:14-15 | a step whose conditions evaluate false adds no errors, whatever its fields hold |
| BackendValidation.HiddenFieldHasNoErrors | backend/app/services/validation_service.py:19-20 | a field whose conditions evaluate false adds no errors, whatever its value |
| BackendValidation.MissingRequiredField | backend/app/services/validation_service.py:22-23 | a visible required field absent from the data is validated as None and gets exactly its "is required" error |
| BackendValidation.EntryErrorsFromVisibleField | backend/app/services/validation_service.py:19-24 | every error of a field entry comes from a visible field object and names that field's id |
| BackendValidation.ErrorsComeFromVisibleFields | backend/app/services/validation_service.py:12-24 | every error in the application's list names a visible field of a visible step |
| BackendValidators.ErrorIf | backend/app/utils/validators.py:32-46 | a passed check adds nothing; a failed check adds exactly one error for the validated field carrying the custom message or the label-based default, or fails as building that message fails |
| BackendValidators.BoundError | backend/app/utils/validators.py:32-41 | an absent bound never fails; a bound Python cannot compare raises TypeError; a bound that is kept adds nothing and a violated one adds exactly the one error of ErrorIf |
| BackendValidators.MinLengthError | backend/app/utils/validators.py:28-36 | the min_length check on the text's length names only the validated field |
| BackendValidators.MaxLengthError | backend/app/utils/validators.py:29-41 | the max_length check on the text's length names only the validated field |
| BackendValidators.PatternError | backend/app/utils/validators.py:30-46 | a falsy pattern is skipped, a non-string pattern raises TypeError, a text the pattern matches at its start (re.match) adds nothing, and a mismatch adds exactly the one "format is invalid" error for the field |
| BackendValidators.TextErrors | backend/app/utils/validators.py:26-46 | the string checks' errors all name the validated field |
| BackendValidators.NumberErrors | backend/app/utils/validators.py:49-70 | the numeric checks' errors all name the validated field |
| BackendValidators.OptionValuesOf | backend/app/utils/validators.py:74-75 | entry i of the result is the "value" of option i, and the list fails exactly when some option is not a dict or has no "value" |
| BackendValidators.SelectErrors | backend/app/utils/validators.py:73-80 | the select check's errors all name the validated field |
| BackendValidators.ValidateField | backend/app/utils/validators.py:4-82 | appending check by check gives exactly the specified error list of validate_field, with each KeyError and TypeError where the source raises it |
| BackendValidators.RequiredBlankValue | backend/app/utils/validators.py:15-19 | a required field whose value is None or "" gets exactly one error: the custom message, else "<label> is required" |
| BackendValidators.OptionalBlankValue | backend/app/utils/validators.py:21-23 | an optional field left blank has no errors, whatever its type and rules |
| BackendValidators.TextChecksAreIndependent | backend/app/utils/validators.py:26-46 | for a text-like field each failed check (min_length, max_length, pattern) adds its own error, in that order, whatever the others found |
| BackendValidators.NonNumericValue | backend/app/utils/validators.py:49-57 | a non-blank number or currency value float() rejects, on a required or optional field, gets exactly "<label> must be a number", which no custom message replaces |
| BackendValidators.NumericBoundsInclusive | backend/app/utils/validators.py:59-70 | a number passes exactly when it lies within min_value and max_value, both inclusive |
| BackendValidators.NumberBounds | backend/app/utils/validators.py:59-70 | the numeric checks find no error exactly when the number is within both bounds |
| BackendValidators.LowerBound | backend/app/utils/validators.py:61-65 | the min_value check fails exactly when the number is below the bound |
| BackendValidators.UpperBound | backend/app/utils/validators.py:66-70 | the max_value check fails exactly when the number is above the bound |
| BackendValidators.SelectWithoutOptions | backend/app/utils/validators.py:73-80 | a select with no options rejects every non-blank value with its "invalid selection" error |
| BackendValidators.ErrorsNameTheField | backend/app/utils/validators.py:4-82 | every error validate_field returns names the validated field |
| BackendValidators.ConditionsAreConjunction | backend/app/utils/validators.py:93-119 | the conditions hold exactly when each one does, and fail exactly when one fails after all earlier ones held |
| BackendValidators.AllHoldIsConjunction | backend/app/utils/validators.py:93-119 | a loop that returns at the first failing check is a conjunction, in both directions |
| BackendValidators.NoConditionsHold | backend/app/utils/validators.py:90-91 | a missing or empty condition list holds |
| BackendValidators.ConditionsHold | backend/app/utils/validators.py:85-119 | missing or empty conditions hold; a truthy value that is not a list raises TypeError; a list holds exactly when every condition in it holds |
| BackendValidators.OrderingIsStrict | backend/app/utils/validators.py:106-117 | greater_than and less_than are strict, and fail when either side is not a number |
| BackendValidators.UnknownOperatorPasses | backend/app/utils/validators.py:98-119 | a condition with an operator the evaluator does not know passes |
| ApplicationService.Merge | backend/app/services/application_service.py:35-37 | `existing_data.update(data)`: the merged keys are both key sets; incoming keys win, other existing keys keep their values |
| ApplicationService.ApplicationStore.constructor | backend/app/models/application.py:8-9 | the store starts with the given schema table and no applications |
| ApplicationService.ApplicationStore.CreateApplication | backend/app/services/application_service.py:11-18 | with no stored schema nothing is written and the error names carrier and version; otherwise a draft (status "draft", empty data, both timestamps now, no submission time) is stored under the new id and returned |
| ApplicationService.ApplicationStore.SaveApplication | backend/app/services/application_service.py:26-40 | an unknown id gives "Application not found" and a submitted one "Cannot modify a submitted application", both leaving the table unchanged; a draft gets its data merged and updated_at set, nothing else changes; for a stored id the new table is exactly the Save step of the lifecycle applied at that id |
| ApplicationService.ApplicationStore.Validate | backend/app/services/application_service.py:43-54 | returns the lookup failure ("Application not found", "Carrier schema not found") or the application's data validated against its own carrier schema, valid iff no errors |
| ApplicationService.ApplicationStore.Submit | backend/app/services/application_service.py:57-67 | the answer is the specified submit outcome; only a successful submission changes the table, and only at that application, to the MarkSubmitted step of the lifecycle |
| ApplicationService.SubmittedDataIsFrozen | backend/app/services/application_service.py:32-33 | once submitted, no later save or submission changes an application's data or status |
| ApplicationService.SavesMergeInOrder | backend/app/services/application_service.py:35-39 | after a sequence of saves a draft holds exactly the keys it held or some save held; the last save that holds a key decides its value, and keys no save touched keep their values |
| ApplicationService.LastSaveDecides | backend/app/services/application_service.py:35-39 | after a sequence of saves, a key takes its value from the last save that holds it |
| ApplicationService.SubmissionNeedsValidData | backend/app/services/application_service.py:57-67 | a submission goes through exactly when the application and its schema exist and the validator finds no errors, and then only status, submitted_at and updated_at change; a rejection carries exactly the validator's errors, which are never empty |
| CarrierSchema.ListSchemas | backend/app/models/carrier_schema.py:45-58 | the loop over the scan yields the deduplicated list: one entry per carrier, replaced only by a strictly greater version |
| CarrierSchema.LatestPerCarrier | backend/app/models/carrier_schema.py:51-58 | the deduplicated list has distinct carriers, covers every carrier of the scan, and each entry is an item of the scan with no greater version of its carrier, the first of its carrier with that version |
| CarrierSchema.UpsertNew | backend/app/models/carrier_schema.py:55-56 | a carrier not yet seen is appended, and the invariant is kept |
| CarrierSchema.UpsertNewer | backend/app/models/carrier_schema.py:55-56 | an item with a strictly greater version replaces its carrier's entry in place, and the invariant is kept |
| CarrierSchema.UpsertOlder | backend/app/models/carrier_schema.py:55-56 | an item whose version is not greater leaves the list unchanged, and the invariant is kept |
| CarrierSchema.FindVersion | backend/app/models/carrier_schema.py:27-32 | a lookup with a version finds an item with exactly that carrier and version, or none exists |
| CarrierSchema.LatestSchemaIsGreatest | backend/app/models/carrier_schema.py:34-42 | without a version the schema is found exactly when the table has the carrier, and it is a stored item of that carrier with the greatest version |
| Conversation.ConversationState.constructor | ai-service/app/models/conversation.py:51-60 | a new session state holds the given id, phase, fields, steps and settings, no messages and no submission time |
| Conversation.Ids | ai-service/app/models/conversation.py:54 | the list of field ids has one entry per field, in order |
| Conversation.FindField | ai-service/app/models/conversation.py:54 | a lookup in the field dictionary finds a field with that id, or none exists |
| Conversation.FindUnique | ai-service/app/models/conversation.py:54 | with unique ids, looking up a field's own id finds exactly that field |
| Conversation.DataMap | ai-service/app/models/conversation.py:108 | the data seen by conditions holds no None value |
| Conversation.DataMapLookup | ai-service/app/models/conversation.py:108 | a field's id is in the condition data exactly when its value is not None, and maps to that value |
| Conversation.DataMapAbsent | ai-service/app/models/conversation.py:108 | an id no field has is not in the condition data |
| Conversation.AllHoldIff | ai-service/app/models/conversation.py:109-112 | a loop with early return over conditions holds exactly when every condition does |
| Conversation.AnyHoldsIff | ai-service/app/models/conversation.py:137 | any() over child conditions holds exactly when one of them does |
| Conversation.ConditionsAreConjunction | ai-service/app/models/conversation.py:105-112 | a field's condition list (None or empty passes) holds exactly when every condition holds |
| Conversation.NotIsNor | ai-service/app/models/conversation.py:138-139 | NOT holds exactly when none of its children holds; with one child it is that child's negation |
| Conversation.AndOrSemantics | ai-service/app/models/conversation.py:134-137 | AND is the conjunction and OR the disjunction of the children |
| Conversation.OrderingAgainstMissingIsFalse | ai-service/app/models/conversation.py:170-177 | gt, gte, lt and lte against a field with no value are false |
| Conversation.LeafContains | ai-service/app/models/conversation.py:166-169 | a leaf "contains" holds exactly when the field holds a list containing the expected value |
| Conversation.LeafInFalsyExpected | ai-service/app/models/conversation.py:178-181 | leaf "in" and "not_in" read a falsy expected value as the empty list |
| Conversation.UnknownFormsHold | ai-service/app/models/conversation.py:114-182 | an unrecognised condition shape or operator passes, at every level |
| Conversation.ActiveFieldsMembers | ai-service/app/models/conversation.py:65-70 | a field is active exactly when it is in the dictionary and its conditions hold over the current data |
| Conversation.UnconditionalFieldIsActive | ai-service/app/models/conversation.py:105-107 | a field without conditions is always active |
| Conversation.MissingRequiredMembers | ai-service/app/models/conversation.py:72-76 | missing_required holds exactly the active required fields that are MISSING |
| Conversation.UnconfirmedFieldsMembers | ai-service/app/models/conversation.py:78-82 | unconfirmed_fields holds exactly the active fields that are UNCONFIRMED |
| Conversation.AllRequiredResolved | ai-service/app/models/conversation.py:84-88 | the scan answers true exactly when no active required field is MISSING or UNCONFIRMED |
| Conversation.RequiredResolvedIff | ai-service/app/models/conversation.py:72-88 | resolution is exactly: missing_required is empty and no unconfirmed field is required |
| Conversation.ApplicationDataKeys | ai-service/app/models/conversation.py:90-97 | application_data holds an id exactly when some field with that id is CONFIRMED or COLLECTED with a value, whether active or not |
| Conversation.ApplicationDataValue | ai-service/app/models/conversation.py:90-97 | with unique ids, a resolved field's value is what application_data holds under its id |
| Conversation.FieldSummary | ai-service/app/models/conversation.py:99-103 | the loop counts, for each of the four statuses, exactly the active fields with that status |
| Conversation.CountAppend | ai-service/app/models/conversation.py:101-102 | counting one more field adds one to its own status only |
| Conversation.SummaryCoversAll | ai-service/app/models/conversation.py:99-103 | the four counts add up to the number of fields counted |
| FieldValidation.ValidateField | ai-service/app/services/validation_service.py:11-31 | the verdict is valid exactly when there is no message; a blank value is valid exactly when the field is optional, and a blank required one gets "<label, or field id when the label is empty> is required.", never the custom message; otherwise the type's validator decides, its failure message replaced by a truthy custom_message; a type without a validator always passes |
| FieldValidation.CustomMessageReplaces | ai-service/app/services/validation_service.py:21-29 | a non-empty custom_message rule replaces the validator's message on every failure |
| FieldValidation.TextRule | ai-service/app/services/validation_service.py:34-43 | text and textarea values pass exactly when their length is within min_length and max_length and the pattern matches in full; without a custom message the failure message is the first failing rule's, as CheckText states |
| FieldValidation.CheckText | ai-service/app/services/validation_service.py:34-43 | the text passes exactly when it meets min_length, max_length and the "pattern" rule; the rules are checked in that order and the first that fails gives its message: "must be at least N characters.", "must be at most N characters.", "format is invalid." |
| FieldValidation.EmailShapeIsGrammar | ai-service/app/services/validation_service.py:49 | the email check accepts exactly local "@" host "." tail with every part non-empty and free of '@' and whitespace |
| FieldValidation.EmailShapeHasGrammar | ai-service/app/services/validation_service.py:49 | every text the email check accepts splits as local "@" host "." tail |
| FieldValidation.GrammarHasEmailShape | ai-service/app/services/validation_service.py:49 | every local "@" host "." tail text is accepted by the email check |
| FieldValidation.EmailRule | ai-service/app/services/validation_service.py:46-51 | an email value passes exactly when it is of that address grammar and also meets the text rules |
| FieldValidation.PhoneRule | ai-service/app/services/validation_service.py:54-64 | a phone value passes its pattern in full when one is set, otherwise exactly when it has at least 10 decimal digits, any Unicode Nd digit counting as \D keeps it |
| FieldValidation.CheckPhone | ai-service/app/services/validation_service.py:54-64 | with a "pattern" rule the number passes exactly when the rule holds; without one, exactly when it has at least ten digits; a failure message starts with the field name |
| FieldValidation.SsnShapeIsGrammar | ai-service/app/services/validation_service.py:69 | the default SSN shape is exactly three digits, a dash, two digits, a dash and four digits, where a digit is any Unicode decimal digit \d matches |
| FieldValidation.SsnRule | ai-service/app/services/validation_service.py:67-72 | without a pattern rule an SSN value passes exactly when it has that three-two-four digit shape |
| FieldValidation.CheckSsn | ai-service/app/services/validation_service.py:67-72 | with a "pattern" rule the value passes exactly when the rule holds; without one, exactly when it is three digits, a dash, two digits, a dash and four digits; a failure message starts with the field name |
| FieldValidation.SsnInArabicIndicDigits | ai-service/app/services/validation_service.py:69 | an SSN written in Arabic-Indic digits has the default shape, and a letter in a digit position does not |
| FieldValidation.NumberRule | ai-service/app/services/validation_service.py:75-88 | number and currency values pass exactly when float() accepts them and they lie within min_value and max_value, inclusive |
| FieldValidation.SelectRule | ai-service/app/services/validation_service.py:91-97 | a select value passes exactly when there are no options or it equals one option's value |
| FieldValidation.CheckboxRule | ai-service/app/services/validation_service.py:100-103 | a checkbox value passes exactly when it is a boolean |
| FieldValidation.DateRule | ai-service/app/services/validation_service.py:106-116 | a date value passes exactly when it parses as an ISO date-time (if it contains 'T') or as an ISO date |
| Extraction.FieldSchemaLookup | ai-service/app/services/extraction_service.py:23-43 | each key of a field's JSON Schema property holds the value the first assignment to it gives, and no other key is present |
| Extraction.FieldSchemaContents | ai-service/app/services/extraction_service.py:9-43 | a field's property carries its JSON type, its label (or id) as description, its options' values as enum for a non-empty select, its length and value rules under their JSON Schema names, and the SSN type's pattern in place of the rule's |
| Extraction.BuildExtractionTool | ai-service/app/services/extraction_service.py:46-64 | the loop fills the properties with one assignment per field, in order |
| Extraction.ExtractionPropertiesKeys | ai-service/app/services/extraction_service.py:48-50 | the extraction tool has a property for exactly the ids of its fields |
| Extraction.PropertiesKeys | ai-service/app/services/extraction_service.py:48-50 | assigning one property per field gives exactly the fields' ids as keys |
| Extraction.ExtractionPropertiesValue | ai-service/app/services/extraction_service.py:48-50 | with unique ids each field's property is that field's schema |
| Extraction.PropertiesValue | ai-service/app/services/extraction_service.py:48-50 | with unique ids each field's id maps to its own assigned property |
| Extraction.ConfirmTool | ai-service/app/services/extraction_service.py:67-91 | the confirmation tool enumerates exactly the given fields' ids, in order |
| Extraction.ConfirmToolSchema | ai-service/app/services/extraction_service.py:76-91 | the confirmation tool's input schema requires "field_ids" and allows no other property |
| Extraction.DedupByIdMembers | ai-service/app/services/extraction_service.py:330 | the dict comprehension keeps only fields it was given |
| Extraction.DedupByIdKeys | ai-service/app/services/extraction_service.py:330 | the dict comprehension keeps every id it was given |
| Extraction.DedupByIdUnique | ai-service/app/services/extraction_service.py:330 | the dict comprehension keeps each id once |
| Extraction.BuildToolsForPhase | ai-service/app/services/extraction_service.py:307-343 | building the tools, with the extraction tool built by its loop, gives the phase's tool list |
| Extraction.IdsOfConcat | ai-service/app/services/extraction_service.py:309-343 | the fields offered by a tool list are those of its parts |
| Extraction.ExtractToolIds | ai-service/app/services/extraction_service.py:46-64 | an extraction tool built from fields accepts exactly their ids |
| Extraction.ConfirmToolIds | ai-service/app/services/extraction_service.py:67-91 | a confirmation tool built from fields enumerates exactly their ids |
| Extraction.AdvisorToolsOfferNoFields | ai-service/app/services/extraction_service.py:94-304 | the advisor tools neither extract nor confirm any field |
| Extraction.AdvisorToolsOffered | ai-service/app/services/extraction_service.py:312-314 | with a non-empty advisor name the session offers every advisor tool; without one, none |
| Extraction.AdvisorToolsAddNoFields | ai-service/app/services/extraction_service.py:312-314 | the advisor tools add no field to what the phase offers |
| Extraction.PhaseToolsAreFieldTools | ai-service/app/services/extraction_service.py:316-341 | the phase adds only extraction and confirmation tools |
| Extraction.SpotCheckPhaseTools | ai-service/app/services/extraction_service.py:316-323 | in SPOT_CHECK the tools confirm exactly the active unconfirmed fields and extract exactly the active missing or unconfirmed ones |
| Extraction.SpotCheckOffers | ai-service/app/services/extraction_service.py:307-323 | the same for the whole tool list, advisor tools included |
| Extraction.CollectingPhaseTools | ai-service/app/services/extraction_service.py:325-332 | in COLLECTING nothing is confirmed and exactly the active fields that are missing or carry a validation error are extractable |
| Extraction.CollectingOffers | ai-service/app/services/extraction_service.py:307-332 | the same for the whole tool list, advisor tools included |
| Extraction.ReviewingPhaseTools | ai-service/app/services/extraction_service.py:334-341 | in REVIEWING the tools confirm exactly the active confirmed or collected fields and extract any active field |
| Extraction.ReviewingOffers | ai-service/app/services/extraction_service.py:307-341 | the same for the whole tool list, advisor tools included |
| Extraction.TerminalPhasesOfferNoFieldTools | ai-service/app/services/extraction_service.py:307-343 | COMPLETE and SUBMITTED offer no field tool: only the advisor tools, if any |
| ConversationService.PutFieldUnique | ai-service/app/services/conversation_service.py:91 | assigning a field into the dictionary keeps ids unique and adds exactly its id |
| ConversationService.PutFieldKeeps | ai-service/app/services/conversation_service.py:91 | assigning a field leaves every field with another id where it was |
| ConversationService.PutFieldPlaces | ai-service/app/services/conversation_service.py:91 | after the assignment the new field is found under its id |
| ConversationService.TrackFields | ai-service/app/services/conversation_service.py:76-101 | the dictionary holds one field per distinct defined id, each with its known value (UNCONFIRMED) or none (MISSING) and the definition's label, type and rules |
| ConversationService.TrackLastDefinitionWins | ai-service/app/services/conversation_service.py:88-101 | when an id is defined more than once, the last definition decides its field |
| ConversationService.InitialPhaseIff | ai-service/app/services/conversation_service.py:103-105 | a session starts in SPOT_CHECK exactly when some defined field has a non-null known value, and in COLLECTING otherwise |
| ConversationService.TrackInto | ai-service/app/services/conversation_service.py:88-101 | the inner loop of create_session adds one step's definitions to the dictionary, in order |
| ConversationService.BuildFields | ai-service/app/services/conversation_service.py:76-101 | the loop over the steps builds exactly the specified field dictionary and step records |
| ConversationService.ExtractEntryInto | ai-service/app/services/conversation_service.py:360-385 | one extraction pair applied to the session in place has the specified effect, and only the fields change |
| ConversationService.ExtractInto | ai-service/app/services/conversation_service.py:358-391 | one extraction call applied in place has the effect of its pairs in order, and only the fields change |
| ConversationService.ConfirmInto | ai-service/app/services/conversation_service.py:393-407 | one confirmation call applied in place has the effect of its ids in order, and only the fields change |
| ConversationService.ConfirmTargets | ai-service/app/services/conversation_service.py:394-396 | iterating field_ids gives a list's items, a string's characters or a dict's keys, in order; any other value gives no ids (see Left out) |
| ConversationService.ProcessToolCalls | ai-service/app/services/conversation_service.py:345-413 | the calls applied in place, one by one, give the specified fields, updated_fields and per-id results; nothing but the fields changes |
| ConversationService.ExtractEntryEffect | ai-service/app/services/conversation_service.py:360-385 | a null value or unknown id changes nothing; a valid value is stored as COLLECTED with no error; an invalid one keeps value and status and records the validator's message; no other field changes |
| ConversationService.ConfirmEntryEffect | ai-service/app/services/conversation_service.py:396-406 | only a field that is UNCONFIRMED, CONFIRMED or COLLECTED is confirmed, keeping its value and clearing its error; a MISSING field or unknown id is skipped |
| ConversationService.ValidationReadsConfig | ai-service/app/services/conversation_service.py:368 | the validator's verdict depends only on the field's configuration, not its status or value |
| ConversationService.ProgressedReflexive | ai-service/app/services/conversation_service.py:345-413 | leaving the fields as they are is allowed progress |
| ConversationService.ProgressedTransitive | ai-service/app/services/conversation_service.py:345-413 | progress composed with progress is progress |
| ConversationService.ExtractEntryProgress | ai-service/app/services/conversation_service.py:360-385 | one extraction pair only stores validated values and never moves a status back |
| ConversationService.ExtractAllProgress | ai-service/app/services/conversation_service.py:358-391 | one extraction call only stores validated values and never moves a status back |
| ConversationService.ConfirmAllProgress | ai-service/app/services/conversation_service.py:393-407 | one confirmation call never changes a value and never moves a status back |
| ConversationService.ApplyCallsProgress | ai-service/app/services/conversation_service.py:345-413 | no batch of tool calls reorders, adds, drops or reconfigures fields, moves a status back, or stores a value the validator rejects |
| ConversationService.ApplyCallsKeepIds | ai-service/app/services/conversation_service.py:345-413 | a batch keeps the field ids, so they stay unique |
| ConversationService.ApplyCallsResultKeys | ai-service/app/services/conversation_service.py:353-410 | every tool-call id gets a result, and nothing else does |
| ConversationService.UnknownToolChangesNothing | ai-service/app/services/conversation_service.py:409-410 | any other tool is answered "Unknown tool: <name>" and changes nothing |
| ConversationService.MaybeAdvancePhase | ai-service/app/services/conversation_service.py:416-443 | the phase becomes the specified next phase; fields, messages, submission time, steps, callback, model, advisor and client context are unchanged |
| ConversationService.NextPhaseForward | ai-service/app/services/conversation_service.py:416-443 | the phase only moves forward, and never past REVIEWING |
| ConversationService.NextPhaseIdempotent | ai-service/app/services/conversation_service.py:416-443 | advancing twice is advancing once |
| ConversationService.SpotCheckExit | ai-service/app/services/conversation_service.py:418-428 | SPOT_CHECK is left exactly when no active field is unconfirmed, and goes on to REVIEWING in the same call exactly when all required fields are also resolved |
| ConversationService.EnteringReviewMeansResolved | ai-service/app/services/conversation_service.py:424-427 | REVIEWING is entered only when no active required field is missing and none is unconfirmed |
| ConversationService.SubmitSucceedsIff | ai-service/app/services/conversation_service.py:257-296 | submission succeeds exactly when the session is not yet submitted, nothing required is missing (checked only before REVIEWING), and the callback, if any, did not raise; every answer counts the application data |
| ConversationService.SubmitIgnoresUnconfirmed | ai-service/app/services/conversation_service.py:266-274 | for any fields with an active required field still UNCONFIRMED, the required fields are unresolved, yet outside SUBMITTED the session is submitted when nothing required is missing and the callback, if any, accepts |
| ConversationService.LlmMessagesOpenWithUser | ai-service/app/services/conversation_service.py:329-342 | the history the model sees opens with the user and holds the whole conversation after at most one synthetic message |
| ConversationService.TurnProgress | ai-service/app/services/conversation_service.py:128-254 | a turn changes fields only as the field tools may, and moves the phase forward only |
| ConversationService.AdvisorCallsKeepFields | ai-service/app/services/conversation_service.py:160-171 | a batch of advisor tools only leaves the fields as they were |
| ConversationService.SelectProductIsUnknownTool | ai-service/app/services/conversation_service.py:40-44 | select_product is not among the advisor tool names, so it goes to the field processor and is answered "Unknown tool" |
| ConversationService.AdvisorCallsInto | ai-service/app/services/conversation_service.py:174-197 | the advisor-tool loop records each call's result in order over the field tools' results |
| ConversationService.RunTurn | ai-service/app/services/conversation_service.py:145-252 | the body of a turn gives the specified reply, fields and phase, leaving the messages, the submission time and the session settings as they were |
| ConversationService.SessionStore.constructor | ai-service/app/services/conversation_service.py:46-47 | the store starts with no sessions |
| ConversationService.SessionStore.Open | ai-service/app/services/conversation_service.py:107-125 | the new session holds the computed fields, steps and phase, the greeting as its only message, and is stored under its id |
| ConversationService.SessionStore.CreateSession | ai-service/app/services/conversation_service.py:54-125 | the stored session has the specified fields, steps, initial phase and greeting, and the given settings |
| ConversationService.SessionStore.HandleMessage | ai-service/app/services/conversation_service.py:128-254 | only the addressed session may change and its settings are kept; an unknown session gives no reply; a terminal one answers "already complete" and changes nothing; otherwise the user message, the turn's fields and phase, and the assistant reply are recorded |
| ConversationService.SessionStore.SubmitSession | ai-service/app/services/conversation_service.py:257-296 | only the addressed session may change, and its fields, messages and settings are kept; an unknown session gives no answer; otherwise the answer is the specified decision and only a successful submission sets SUBMITTED and the submission time |
| SchemaAdapter.FieldTypesAreValidated | ai-service/app/services/schema_adapter.py:12-30 | every question type maps to an internal type the field validator checks; radio and multi_select become select, and unknown types become text |
| SchemaAdapter.Texts | ai-service/app/services/schema_adapter.py:112-119 | the sub-field labels can be joined exactly when all are strings, and then they are those strings |
| SchemaAdapter.PresentAppend | ai-service/app/services/schema_adapter.py:50-53 | keeping the present items of a list extended by one item adds that item when present |
| SchemaAdapter.CollectOk | ai-service/app/services/schema_adapter.py:49-53 | without an exception the loop keeps exactly the questions that map to a field, in order |
| SchemaAdapter.CollectFails | ai-service/app/services/schema_adapter.py:49-53 | the first question that raises decides the exception the loop raises |
| SchemaAdapter.CollectPrefixOk | ai-service/app/services/schema_adapter.py:49-53 | a loop in which nothing raises completes |
| SchemaAdapter.CollectStopsAtFailure | ai-service/app/services/schema_adapter.py:49-53 | once the loop has raised, later questions do not matter |
| SchemaAdapter.AddRuleGet | ai-service/app/services/schema_adapter.py:127-161 | one rule sets exactly the keys its type writes (the value, or the description as custom_message when truthy, or True for equals_today) and keeps every other key |
| SchemaAdapter.LastRuleWins | ai-service/app/services/schema_adapter.py:124-164 | the last rule that writes a key decides its value |
| SchemaAdapter.UnwrittenKeyAbsent | ai-service/app/services/schema_adapter.py:124-164 | a key no rule writes is absent from the flat validation dict |
| SchemaAdapter.RuleKinds | ai-service/app/services/schema_adapter.py:132-161 | required rules write nothing, min and max land on min_value and max_value, and only pattern, date, equals and equals_today rules with a truthy description set custom_message |
| SchemaAdapter.AdaptValidation | ai-service/app/services/schema_adapter.py:124-164 | the loop over the rules builds exactly the specified flat validation dict |
| SchemaAdapter.InternalConditionOf | ai-service/app/services/schema_adapter.py:191-195 | the condition evaluator reads the converted three-key dict as a simple condition |
| SchemaAdapter.EappConditionOf | ai-service/app/services/schema_adapter.py:182-195 | the condition evaluator reads an eApp three-key dict as a leaf |
| SchemaAdapter.LeafToCondition | ai-service/app/services/schema_adapter.py:182-195 | as written: TypeError exactly when the operator cannot be hashed; otherwise an internal-format dict that the evaluator reads as a simple condition on the leaf's field, with the operator mapped by op_map and the leaf's value |
| SchemaAdapter.LeafToConditionKeepsEquality | ai-service/app/services/schema_adapter.py:182-195 | eq and neq leaves keep their meaning through the conversion as written |
| SchemaAdapter.LeafToConditionReversesContains | ai-service/app/services/schema_adapter.py:186-190 | a contains leaf on a text field equal to the expected text is false read as a leaf, but true after the conversion as written, where "in" became a substring test |
| SchemaAdapter.LeafToConditionDropsOrdering | ai-service/app/services/schema_adapter.py:186-194 | a gt leaf that is false becomes an operator the simple evaluator does not know, which always holds |
| SchemaAdapter.LeafCondition | ai-service/app/services/schema_adapter.py:182-195 | the intended conversion: TypeError exactly when the operator cannot be hashed; "eq" and "neq" become simple "equals"/"not_equals" conditions, and every other operator stays a leaf the evaluator reads with that operator |
| SchemaAdapter.LeafConditionKeepsMeaning | ai-service/app/services/schema_adapter.py:167-195 | the corrected conversion keeps the meaning of every leaf for all data |
| SchemaAdapter.AdaptVisibility | ai-service/app/services/schema_adapter.py:167-179 | always a one-element list; a leaf gives its converted condition and fails exactly when the conversion does; the only errors are TypeError and AttributeError |
| SchemaAdapter.VisibilityShapes | ai-service/app/services/schema_adapter.py:167-179 | a compound visibility is kept whole as a one-element list; a leaf becomes exactly one condition that means what the leaf meant |
| SchemaAdapter.AdaptRepeatableGroup | ai-service/app/services/schema_adapter.py:100-121 | no field exactly when the group config is a dict without truthy sub-fields; otherwise one text field with the keys field_id, type, label, required, hint and validation, carrying the question's id and an empty validation dict; only AttributeError, TypeError or KeyError is raised |
| SchemaAdapter.AdaptQuestion | ai-service/app/services/schema_adapter.py:60-97 | an allocation table maps to no field; any other non-group question that adapts maps to a field; every adapted field carries the question's id as field_id |
| SchemaAdapter.FieldKeys | ai-service/app/services/schema_adapter.py:74-95 | an ordinary question's field lists field_id, type, label and required, then hint, options, validation and conditions when present, in that order |
| SchemaAdapter.FieldMembers | ai-service/app/services/schema_adapter.py:74-95 | an ordinary question's field carries its id and mapped type, and each optional key exactly when its part is present |
| SchemaAdapter.OptionalKeys | ai-service/app/services/schema_adapter.py:81-95 | each optional key is listed exactly when its part is added |
| SchemaAdapter.AdaptOrdinary | ai-service/app/services/schema_adapter.py:62-97 | an ordinary question adapts to the field built from its parts; validation and conditions are present exactly when the question's values are truthy |
| SchemaAdapter.OrdinaryQuestionShape | ai-service/app/services/schema_adapter.py:62-97 | an ordinary question becomes a field with its id and mapped type, carrying hint, options, validation and conditions exactly when the question's values for them are truthy |
| SchemaAdapter.SkippedAndGroupedQuestions | ai-service/app/services/schema_adapter.py:66-121 | allocation tables and repeatable groups without sub-fields map to no field; a group with sub-fields becomes one text field with a hint and an empty validation dict |
| SchemaAdapter.PageKeepsQuestionOrder | ai-service/app/services/schema_adapter.py:47-59 | a page keeps its id and title (default "") and its fields are the adapted questions that map to a field, in order |
| SchemaAdapter.AdaptPage | ai-service/app/services/schema_adapter.py:47-59 | the loop over a page's questions builds exactly the specified step |
| SchemaAdapter.PresentIsFilter | ai-service/app/services/schema_adapter.py:40-43 | keeping the pages that have fields is a filter over the steps |
| SchemaAdapter.SchemaDropsEmptyPages | ai-service/app/services/schema_adapter.py:33-44 | the schema's steps are its adapted pages in page order, without the pages that have no fields |
| SchemaAdapter.PageStepOk | ai-service/app/services/schema_adapter.py:41-43 | a page that adapts is kept exactly when it has fields |
| SchemaAdapter.SchemaFailsAtFirstBadPage | ai-service/app/services/schema_adapter.py:40-43 | a page that raises makes the whole adaptation raise, with the first page's error |
| SchemaAdapter.AdaptEappSchema | ai-service/app/services/schema_adapter.py:33-44 | the loop over the pages builds exactly the specified list of steps |
| PrefillAgent.ExecuteTool | ai-service/app/services/prefill_agent.py:139-161 | an unknown tool gets an "Unknown tool: <name>" error object; a CRM or policy lookup that finds data answers it unchanged, and a lookup never answers with an empty document; the document tool echoes extracted_fields (default {}); the report tool echoes its input |
| PrefillAgent.RunPrefillAgent | ai-service/app/services/prefill_agent.py:166-257 | the agent starts from the opening message and runs at most five iterations of the specified loop |
| PrefillAgent.AgentLoop | ai-service/app/services/prefill_agent.py:198-257 | the loop gives exactly the result, history and number of LLM calls of the specified run |
| PrefillAgent.RunContinues | ai-service/app/services/prefill_agent.py:216-237 | an iteration whose batch is non-empty and holds no non-empty report appends the assistant turn and the results and goes on |
| PrefillAgent.RunReports | ai-service/app/services/prefill_agent.py:231-248 | a batch with a non-empty report ends the run after that iteration with the report's values (defaults for missing keys) |
| PrefillAgent.RunTools | ai-service/app/services/prefill_agent.py:220-232 | one batch executes every call in order and keeps the input of the last report call |
| PrefillAgent.ResultsMatchCalls | ai-service/app/services/prefill_agent.py:223-229 | there is one tool result per call, in call order, each answering its call's id |
| PrefillAgent.LastReportIsLast | ai-service/app/services/prefill_agent.py:231-232 | the terminal payload is present exactly when the batch holds a report call, and it is the input of the last one; calls after a report are still executed |
| PrefillAgent.LastReportNone | ai-service/app/services/prefill_agent.py:231-232 | with no terminal payload no call of the batch is a report |
| PrefillAgent.LastReportFound | ai-service/app/services/prefill_agent.py:231-232 | a terminal payload is the input of the batch's last report call |
| PrefillAgent.RunShape | ai-service/app/services/prefill_agent.py:199-235 | the loop calls the LLM at most the allowed number of times, keeps its opening history, and appends only assistant/tool-result pairs whose results answer that turn's calls |
| PrefillAgent.RunResult | ai-service/app/services/prefill_agent.py:237-257 | the agent returns either the fallback or the values of a report whose payload was non-empty |
| RedtailCrm.RemoveTags | ai-service/app/services/datasources/redtail_crm.py:30 | text without a "<" is left as it is by the tag substitution |
| RedtailCrm.CollapseSpaces | ai-service/app/services/datasources/redtail_crm.py:32 | every run of whitespace becomes one space: the result is empty only for empty input, starts with whitespace exactly when the input does, and has no two whitespace characters in a row |
| RedtailCrm.StripHtml | ai-service/app/services/datasources/redtail_crm.py:26-33 | a blank value gives ""; a truthy non-string raises TypeError; a string comes back with no leading or trailing whitespace and single plain spaces only |
| RedtailCrm.CollapseClean | ai-service/app/services/datasources/redtail_crm.py:32 | text that is already single-spaced is unchanged by the whitespace collapse |
| RedtailCrm.CleanTextUnchanged | ai-service/app/services/datasources/redtail_crm.py:26-33 | clean text without tags or entities passes through the HTML stripping unchanged |
| RedtailCrm.NormalizeGender | ai-service/app/services/datasources/redtail_crm.py:36-45 | a blank value gives ""; a truthy non-string raises AttributeError |
| RedtailCrm.GenderSpellings | ai-service/app/services/datasources/redtail_crm.py:40-45 | "male"/"m" give "male", "female"/"f" give "female", in any case and with any padding; any other text gives its trimmed, lower-cased form |
| RedtailCrm.SameGender | ai-service/app/services/datasources/redtail_crm.py:40-45 | two texts with the same trimmed, lower-cased form normalise to the same gender |
| RedtailCrm.GenderIgnoresCase | ai-service/app/services/datasources/redtail_crm.py:40 | the case of a gender's spelling does not change its normal form |
| RedtailCrm.GenderIgnoresPadding | ai-service/app/services/datasources/redtail_crm.py:40 | spaces around a gender's spelling do not change its normal form |
| RedtailCrm.SpelledOut | ai-service/app/services/datasources/redtail_crm.py:41-44 | "male" and "female" are their own normal forms |
| RedtailCrm.GenderIsIdempotent | ai-service/app/services/datasources/redtail_crm.py:36-45 | normalising an already normalised gender changes nothing |
| RedtailCrm.UpToT | ai-service/app/services/datasources/redtail_crm.py:125 | the date part holds no "T", is a prefix of the text, is the whole text when it has no "T", and otherwise stops right before the first "T" |
| RedtailCrm.IdentityFields | ai-service/app/services/datasources/redtail_crm.py:119-129 | first name, last name and tax id are copied exactly when truthy; the date of birth is cut at "T" and kept unless that leaves "" or "None" |
| RedtailCrm.TraitFields | ai-service/app/services/datasources/redtail_crm.py:130-134 | the gender is normalised and kept when not empty; the marital status is lower-cased when truthy; a non-string raises AttributeError |
| RedtailCrm.ContactFields | ai-service/app/services/datasources/redtail_crm.py:117-134 | the contact section maps the identity fields and the traits together, failing exactly when a value read as text is not one |
| RedtailCrm.AddressFields | ai-service/app/services/datasources/redtail_crm.py:137-148 | a failed address fetch or no addresses leaves the fields alone; otherwise each of street, city, state and zip takes the first address's value when that is truthy and keeps its old state when it is not, and no other key changes |
| RedtailCrm.FirstEntryField | ai-service/app/services/datasources/redtail_crm.py:151-160 | a failed fetch or an empty list leaves the fields alone; otherwise the first entry's number (phone) or address (email) is stored, "" when missing |
| RedtailCrm.MirrorOwner | ai-service/app/services/datasources/redtail_crm.py:166-176 | each owner identity field present is copied to its annuitant key; absent ones leave the annuitant key untouched; no other key changes |
| RedtailCrm.DropBlank | ai-service/app/services/datasources/redtail_crm.py:179 | exactly the keys whose value is neither "" nor None are kept, with their values |
| RedtailCrm.Stamp | ai-service/app/services/datasources/redtail_crm.py:163-176 | the owner type becomes "individual" and owner-same-as-annuitant becomes true; the annuitant fields mirror the owner fields |
| RedtailCrm.Finish | ai-service/app/services/datasources/redtail_crm.py:163-179 | the stamped defaults are present, no blank value remains, other keys keep their values, and the annuitant fields mirror the non-blank owner fields |
| RedtailCrm.FinishKeeps | ai-service/app/services/datasources/redtail_crm.py:163-179 | the last step keeps every contact, address, phone and email key whose value is neither "" nor None, with its value, and leaves only keys query can write |
| RedtailCrm.Query | ai-service/app/services/datasources/redtail_crm.py:92-182 | no client id gives {}; an id that is not an integer raises ValueError (TypeError for a non-text one); a failed contact fetch gives {}; otherwise the result fails exactly when a section cannot be read, and is the full mapping of the contact: owner names, tax id, date of birth cut at "T", gender and marital status, the first address, phone and email, the fixed defaults, the mirrored annuitant, no blank value and no other key |
| RedtailCrm.MapContact | ai-service/app/services/datasources/redtail_crm.py:114-182 | the mapping succeeds exactly when every fetched section can be read, and then holds exactly the mapped owner fields, address, phone and email, the defaults and the mirrored annuitant fields, no blank value and no other key |
| RedtailCrm.Sections | ai-service/app/services/datasources/redtail_crm.py:137-160 | the address, phone and email sections succeed exactly when each is readable; they keep every owner field as it was, map the first address's truthy parts, set the phone and the email exactly when there is a first entry, and write no other key |
| RedtailCrm.ClientOf | ai-service/app/services/datasources/redtail_crm.py:68-80 | a contact gives one client exactly when its type is "individual" or blank in any case and its trimmed display name is not empty; a non-object or non-text type raises AttributeError |
| RedtailCrm.ClientsOfPage | ai-service/app/services/datasources/redtail_crm.py:68-80 | the inner loop gives exactly the clients of the page's contacts, in order |
| RedtailCrm.PageClientsNamed | ai-service/app/services/datasources/redtail_crm.py:75-76 | every client from a page has a non-blank, trimmed display name |
| RedtailCrm.ReadPageNamed | ai-service/app/services/datasources/redtail_crm.py:63-87 | reading one page yields only named clients |
| RedtailCrm.PagesReadBounded | ai-service/app/services/datasources/redtail_crm.py:59-62 | the listing requests at least one page and never more than ten |
| RedtailCrm.PastLastPage | ai-service/app/services/datasources/redtail_crm.py:62 | past page ten nothing more is requested |
| RedtailCrm.ListFromStops | ai-service/app/services/datasources/redtail_crm.py:63-66 | a failed request, an empty page or the last page ends the listing |
| RedtailCrm.ListFromNext | ai-service/app/services/datasources/redtail_crm.py:83-87 | a page that is not the last is followed by the listing from the next page |
| RedtailCrm.ReadResponse | ai-service/app/services/datasources/redtail_crm.py:64-87 | the loop body reads exactly the specified step for one page |
| RedtailCrm.ListClients | ai-service/app/services/datasources/redtail_crm.py:54-90 | the listing loop gives exactly the clients and page count of the specified listing from page one |
| RedtailCrm.ListedClientsAreNamed | ai-service/app/services/datasources/redtail_crm.py:54-90 | every listed client has a non-blank, trimmed display name |
| S3Suitability.FirstPresentFinds | ai-service/app/services/datasources/s3_suitability.py:143-149 | the key lookup gives None exactly when every key is missing or None, and otherwise the value of a key all of whose predecessors are missing or None |
| S3Suitability.FirstKeyWins | ai-service/app/services/datasources/s3_suitability.py:145-148 | an earlier key that holds a value wins over every later key |
| S3Suitability.WithoutCurrency | ai-service/app/services/datasources/s3_suitability.py:155 | the cleaned text holds no "$" and no "," and is no longer than the input |
| S3Suitability.WithoutCurrencyAppend | ai-service/app/services/datasources/s3_suitability.py:155 | removing the marks works piece by piece over concatenation |
| S3Suitability.WithoutCurrencyKeeps | ai-service/app/services/datasources/s3_suitability.py:155 | text without "$" or "," is left as it is |
| S3Suitability.WithoutCurrencyIdempotent | ai-service/app/services/datasources/s3_suitability.py:155 | removing the marks twice is removing them once |
| S3Suitability.ParseNumIgnoresCurrency | ai-service/app/services/datasources/s3_suitability.py:151-157 | a dollar amount parses as the number of its text with the "$" and "," removed |
| S3Suitability.NumOrNull | ai-service/app/services/datasources/s3_suitability.py:151-157 | a parse failure is None and a parsed number is that number |
| S3Suitability.Truncate | ai-service/app/services/datasources/s3_suitability.py:162 | int() of a float cuts toward zero |
| S3Suitability.Age | ai-service/app/services/datasources/s3_suitability.py:159-164 | the age is None or a whole number, and None when neither "age" nor "owner_age" holds a value |
| S3Suitability.AgeTruncates | ai-service/app/services/datasources/s3_suitability.py:159-164 | a fractional age is cut to its whole years, toward zero |
| S3Suitability.AgePrefersAge | ai-service/app/services/datasources/s3_suitability.py:159 | an age under "age" wins over one under "owner_age" |
| S3Suitability.Amount | ai-service/app/services/datasources/s3_suitability.py:176-204 | each amount of the payload is a number or None, and None when none of its keys holds a value |
| S3Suitability.BuildPayload | ai-service/app/services/datasources/s3_suitability.py:137-208 | every amount of the payload is a number or None and the age is None or whole |
| S3Suitability.SigningStateFallback | ai-service/app/services/datasources/s3_suitability.py:180 | the signing state falls back from "signed_at_state" to "state" to "owner_state" |
| S3Suitability.PremiumFallback | ai-service/app/services/datasources/s3_suitability.py:176 | with no total premium, a premium given under "premium_amount" is parsed without its currency marks |
| S3Suitability.PayloadJson | ai-service/app/services/datasources/s3_suitability.py:166-208 | the payload has its six sections, and the owner section is always an individual who is the annuitant |
| S3Suitability.OwnerIsFixed | ai-service/app/services/datasources/s3_suitability.py:171-174 | the owner section is the same whatever the client data |
| S3Suitability.StripFences | ai-service/app/services/datasources/s3_suitability.py:96-103 | the reply fails with ValueError exactly when it opens a fence on its only line; otherwise it is stripped, loses its fences and is stripped again |
| S3Suitability.Unfenced | ai-service/app/services/datasources/s3_suitability.py:97-102 | cutting the fences leaves a substring of the reply |
| S3Suitability.FencedReply | ai-service/app/services/datasources/s3_suitability.py:96-103 | a JSON body in a fenced code block, with any info string, comes out as the body, stripped |
| S3Suitability.FencedBody | ai-service/app/services/datasources/s3_suitability.py:97-102 | the fence lines of a fenced block are cut and the body is left with its newline |
| S3Suitability.UnfencedReply | ai-service/app/services/datasources/s3_suitability.py:96-103 | a reply that neither opens nor closes a fence is only stripped |
| S3Suitability.Pending | ai-service/app/services/datasources/s3_suitability.py:66-71 | every fallback result is a dict whose decision is "pending_manual_review" |
| S3Suitability.Evaluate | ai-service/app/services/datasources/s3_suitability.py:49-134 | with no decision prompt the model is not consulted and the decision goes to manual review; otherwise the result follows from the model's reply as the try block and its two handlers say, the handler's "error" carrying the exception's message |
| S3Suitability.Consult | ai-service/app/services/datasources/s3_suitability.py:83-134 | an exception from the call, an unreadable fence ("substring not found"), invalid JSON (the decoder's message) or a reply that is not a dict (the item-assignment TypeError's message) gives a manual-review result with that message under the handler its class selects; a dict reply gets the four metadata keys and keeps every other key |
| S3Suitability.AssignmentError | ai-service/app/services/datasources/s3_suitability.py:107 | the message of storing "carrier" into a JSON reply that is not a dict, the list message exactly for a list |
| S3Suitability.AddMetadata | ai-service/app/services/datasources/s3_suitability.py:107-111 | the result holds the carrier and product names and ids from the guidelines, and every other key keeps the model's value |
| S3Statements.SortByKeyDescending | ai-service/app/services/datasources/s3_statements.py:67 | the listed objects are sorted in place by key, greatest first, as a permutation of the listing |
| S3Statements.Insert | ai-service/app/services/datasources/s3_statements.py:67 | one insertion step extends the sorted prefix by one object and keeps the array a permutation |
| S3Statements.LastSegment | ai-service/app/services/datasources/s3_statements.py:77 | the file name holds no "/", ends the key, is the whole key when it has no "/", and otherwise follows the key's last "/" |
| S3Statements.LastSegmentOfPath | ai-service/app/services/datasources/s3_statements.py:77 | the file name of a directory and a name is that name |
| S3Statements.StatementOf | ai-service/app/services/datasources/s3_statements.py:75-82 | a statement's media type is "application/pdf" and its file name is the key's last segment |
| S3Statements.SameObjects | ai-service/app/services/datasources/s3_statements.py:66-69 | whether an object is eligible and whether it is the latest eligible one do not depend on the listing's order |
| S3Statements.PickFirst | ai-service/app/services/datasources/s3_statements.py:69-87 | the loop over sorted candidates skips objects over 4 MB and failed downloads, and gives None exactly when no object is eligible, otherwise the statement of the eligible object with the greatest key |
| S3Statements.Latest | ai-service/app/services/datasources/s3_statements.py:61-87 | the listed objects give None exactly when none is eligible, otherwise the statement of the eligible object with the greatest key |
| S3Statements.FetchLatestStatement | ai-service/app/services/datasources/s3_statements.py:46-87 | None exactly when the listing under "statements/<client_id>/" fails or holds no eligible object; otherwise the latest eligible statement |
| S3Statements.StatementDict | ai-service/app/services/datasources/s3_statements.py:78-82 | the returned dict is never empty |
| S3Statements.Query | ai-service/app/services/datasources/s3_statements.py:34-37 | the result is {} exactly when no statement is found; otherwise it is the dict of the latest eligible statement under the client's prefix: that object's last key segment as file name, its download in base64, and a PDF media type |
| Retell.Stringify | ai-service/app/routes/retell.py:34 | every entry is kept, in order, with its key and its value as text |
| Retell.ParseAnalysisFields | ai-service/app/routes/retell.py:20-40 | the parse fails with AttributeError exactly when the analysis or its custom analysis data is not a dict |
| Retell.CollectedJson | ai-service/app/routes/retell.py:30-36 | a non-blank collected_fields string holding a JSON dict gives each of its entries, in order, as text; other JSON or invalid JSON gives {} |
| Retell.CollectedFallback | ai-service/app/routes/retell.py:37-39 | with collected_fields absent or empty, the result is exactly the other entries of the custom analysis data as text: each of them appears, every result pair is one of them, and collected_fields itself is not given |
| Retell.CollectedUnreadable | ai-service/app/routes/retell.py:30-40 | a blank collected_fields string, or a truthy one that is not text, gives {} |
| Retell.TranscriptOf | ai-service/app/routes/retell.py:117-122 | the transcript is None exactly when there are no entries, and text otherwise |
| Retell.TranscriptOfOne | ai-service/app/routes/retell.py:117-122 | a single entry gives its own "role: content" line, with no separator |
| Retell.TranscriptGrows | ai-service/app/routes/retell.py:119-122 | each further entry adds a newline and its "role: content" line |
| Retell.Duration | ai-service/app/routes/retell.py:129-132 | the duration is None exactly when a timestamp is falsy, and otherwise (end - start) / 1000 seconds |
| Retell.Outcome | ai-service/app/routes/retell.py:115-132 | a finished call reports its transcript, its parsed analysis fields and its duration, failing exactly when one of these raises |
| Retell.Seeded | ai-service/app/routes/retell.py:79 | a new record holds an empty live transcript and the given status |
| Retell.WellFormedPut | ai-service/app/routes/retell.py:169 | setting a key other than the live transcript, and not setting the status to "ended", keeps a record well formed |
| Retell.StoreWellFormed | ai-service/app/routes/retell.py:17 | storing a well-formed record keeps every record of the table well formed |
| Retell.PolledRecord | ai-service/app/routes/retell.py:135-141 | the record cached after a poll is well formed, has status "ended", the call's transcript, extracted fields and duration, and keeps the cached live transcript (an empty list when there was none) |
| Retell.CallResults.constructor | ai-service/app/routes/retell.py:17 | the table of call records starts empty |
| Retell.CallResults.InitiateCall | ai-service/app/routes/retell.py:67-83 | the call's record is seeded as "registered"; the response carries the call id and the call status (default "registered"); an id that cannot be a key raises TypeError |
| Retell.CallResults.GetCallStatus | ai-service/app/routes/retell.py:86-149 | a cached "ended" or "error" record is answered from the cache without polling; a failed poll answers the cached status or "unknown"; a call not yet ended is answered as polled; an ended call is answered with its outcome and cached |
| Retell.CallResults.Webhook | ai-service/app/routes/retell.py:152-203 | a body that is not a dict, or whose call is not a dict, raises AttributeError and changes nothing; a falsy call id answers ok and changes nothing; an unhashable one raises TypeError; otherwise every other record is kept and the call's record, taken as "unknown" when new, changes exactly as `EventEffect` says: call_started sets only the status, call_ended sets the four ended keys or raises and keeps the record, call_analyzed stores only non-empty fields or raises and keeps it, and any other event keeps it |
| Retell.CallResults.ApplyEvent | ai-service/app/routes/retell.py:168-203 | the event changes the call's record exactly as `EventEffect` says and leaves every other record as it was |
| Retell.CallResults.CallStarted | ai-service/app/routes/retell.py:168-169 | the call's status becomes "in-progress" and nothing else changes |
| Retell.CallResults.CallEnded | ai-service/app/routes/retell.py:171-194 | the call's record becomes "ended" with the call's transcript, fields and duration, keeping its live transcript; other records are untouched |
| Retell.CallResults.CallAnalyzed | ai-service/app/routes/retell.py:196-201 | non-empty extracted fields replace the record's fields; empty ones change nothing |
| Retell.AnalyzedUpdate | ai-service/app/routes/retell.py:200 | only the extracted fields of the record change, and it stays well formed |
| Retell.EndedUpdate | ai-service/app/routes/retell.py:188-193 | the record gets status "ended" and the transcript, fields and duration; every other key is kept and it stays well formed |

## Left out

- The language model, the Retell and Redtail HTTP APIs, S3, DynamoDB, uuid generation and the clock are not modelled. Their answers are parameters: function values such as `llm`, `fetch`, `list`, `download` and `poll`, the `DataSources` and `Services` records, `now`. The async gathering of fetches and all logging are left out for the same reason.
- Regular expressions with patterns supplied by a schema, `float()`/`int()` parsing, ISO date parsing, `str()` of numbers, `json.loads`, `json.dumps` and `base64` are fields of `Values.Primitives` or other function parameters. The two fixed shapes the code relies on are concrete grammars: the default SSN pattern and the email pattern. `json.dumps` output, indentation included, stays abstract (`Primitives.dumpJson`). The pre-fill dispatcher's results are values, which become text through it.
- Python floats are modelled as reals, with no rounding or infinities.
- An exception the source lets propagate is modelled by the name of its class, in a `Failed` result; its message text is not modelled. Where the source formats a caught exception into a returned value (the suitability evaluation), the message text is modelled: fixed texts are written out, and the JSON decoder's message is `Primitives.jsonErrorText`.
- Python int and float values share `Values.Num`, a real. `str(5)` and `str(5.0)` are both `numberText(5.0)`, so `Retell.Stringify` and the validation messages that print a rule value cannot tell "5" from "5.0", and `S3Suitability.AssignmentError` calls every whole JSON number an int.
- Values.PyLt and Values.PyLe: an ordering between two lists gives None, which the conditions read as false. Python orders lists lexicographically, element by element.
- In the visibility conditions of `Conversation`, an ordering or an `in` between values of incompatible types, where Python would raise TypeError, is false. In `FieldValidation`, a numeric rule that is not a number is ignored, where Python's comparison would raise TypeError. The backend's `BackendValidators.ConditionHolds` and `BackendValidators.BoundError` do not take this reading: they fail with TypeError, as backend/app/utils/validators.py does.
- ConversationService.ProcessToolCalls: a `confirm_known_fields` call whose "field_ids" is null, a number or a bool confirms nothing, and an id that is a list or a dict is skipped. The source raises TypeError in both cases (conversation_service.py:394-396), and the turn fails. The turn is modelled without a failure outcome.
- FieldValidation.SelectRule: when the value is not among the options, each caption (the option's "label", or its "value" when there is none) is rendered as text in the message. The source's `", ".join` raises TypeError when a caption is not a string (validation_service.py:95), for example options [{"value": 1}] and value 2. That TypeError is not caught in `process_tool_calls` (conversation_service.py:368). An option without a "value" key cannot be written, because `SelectOption` always has one. The source raises KeyError there (validation_service.py:93, extraction_service.py:31).
- FieldValidation.ValidateField: for a select field it inherits both gaps of SelectRule. A value outside options with a non-string caption gets a message where the source raises TypeError, and an option without a "value" key, where the source raises KeyError, is not representable.
- FieldValidation.TextRule: a truthy "pattern" rule that is not a string counts as matched. `re.fullmatch` raises TypeError there (validation_service.py:41).
- FieldValidation.PhoneRule: the same non-string "pattern" rule counts as matched, where the source raises TypeError (validation_service.py:57).
- FieldValidation.SsnRule: the same non-string "pattern" rule counts as matched, where the source raises TypeError (validation_service.py:70).
- FieldValidation.CheckText: a non-string "pattern" rule counts as matched, as in TextRule (validation_service.py:41).
- FieldValidation.CheckPhone: a non-string "pattern" rule counts as matched, as in PhoneRule (validation_service.py:57).
- FieldValidation.CheckSsn: a non-string "pattern" rule counts as matched, as in SsnRule (validation_service.py:70).
- SchemaAdapter.AdaptVisibility: it translates leaves with the corrected `SchemaAdapter.LeafCondition` (see Findings), not with the as-written `LeafToCondition`. So `AdaptQuestion`, `AdaptedPage` and `AdaptEappSchema` model the intended program: a "contains" leaf stays a "contains" condition and ordering operators are kept, where the source emits an "in" condition and operators its evaluator ignores.
- SchemaAdapter.VisibilityShapes: it states the shapes of the corrected translation, for the same reason.
- `Conversation.ConditionOf` gives None for condition dicts the evaluator would raise on (a missing "operator" or "value", children that are not a list). Tracked fields only hold conditions the evaluator can read.
- Concurrent access to a session, and the voice channel's streaming transport, are not modelled.
- Values.Lower: lower-cases ASCII letters only. Python's `str.lower()` also folds non-ASCII letters.
- RedtailCrm.StripHtml: `html.unescape` is a parameter. Entity decoding is not modelled.
- RedtailCrm.Query: the result is a `map`, so the insertion order of the dict the source builds is not kept. Its keys and values are stated in full.
- `get_notes` of the Redtail data source (redtail_crm.py:184-205) is a note listing that only the API server uses. It is not part of this model.
- `available_fields` of each data source returns a constant list of names, so it is not modelled.
- `fetch_guidelines` of the suitability store is a plain S3 read and JSON parse. It is not part of this model: `S3Suitability.Evaluate` takes the guidelines as given.
- The S3 client errors are the `Failed` answers of the `list` and `download` parameters. Only `ClientError` is handled, as in the source.
- S3Statements.SortByKeyDescending: sorts with an insertion sort and proves the result ordered and a permutation. It does not prove stability, which `list.sort` has, because nothing downstream depends on the order of equal keys.
- Retell records:
  - pydantic's validation of `CallStatusResponse` is not modelled beyond requiring text ids and statuses in `InitiateCall`;
  - call ids are compared as values of the model, so `True` and `1` are different call ids, where Python's dict treats them as one key (`1` and `1.0` are both `Num(1.0)`, so they are one key in the model too);
  - the routes never append to `live_transcript` and never write the "error" status, and the model does not either.
- `LLMService.chat` (ai-service/app/services/llm_service.py:38-44) takes no `force_tool` argument, yet every caller passes one: conversation_service.py:154 and 222, prefill_agent.py:202-207 and s3_suitability.py:85-91. As written, each of these calls raises TypeError. In `S3Suitability` the error is caught by the `try` opened at s3_suitability.py:83, so every evaluation ends in manual review. The model's `Services.chat` of `ConversationService` (which takes the `force_tool` flag), the `llm` function of `PrefillAgent.Run` and the `llm` parameter of `S3Suitability.Evaluate` answer as the callers evidently intend.
- Reading the request body (`request.json()`) is not modelled. `Webhook` takes the parsed body.
- Pre-fill agent:
  - the five advisor tools the prompt offers are not known to `_execute_tool`, so they answer "Unknown tool", as in the source;
  - the mock CRM and policy sources are the `DataSources` parameter.
- ConversationService.SessionStore.HandleMessage: in a terminal phase the source returns a pair where its signature promises a triple (conversation_service.py:143). The model answers an empty triple there.
- `select_product` is offered to the advisor but is not among the tools the field processor knows, so its calls are answered "Unknown tool".
- The block for the REVIEWING phase in `maybe_advance_phase` (conversation_service.py:430-443) computes values and then does nothing, so the model advances no further than REVIEWING. COMPLETE is reached only through submission.
- ConversationService.AdvisorResult: a `missing_fields` input to `call_client` that is not a list is read as empty. Python would iterate a string's characters or a dict's keys, and would raise TypeError on a number, which the handler turns into an error object.
- `advisor_name` and `client_context` are modelled as declared session fields. In the source, `ConversationState` (ai-service/app/models/conversation.py:51-60) declares neither, so the keyword arguments at conversation_service.py:114-115 are dropped at construction. Reading either attribute then raises AttributeError: in every `handle_message` (conversation_service.py:153, 184), in `create_session` for a COLLECTING session (conversation_service.py:319) and in `build_tools_for_phase` (extraction_service.py:313). The model describes the service as it is evidently meant to run, with both attributes kept.
- ApplicationService.ApplicationStore.Submit: as in the source, it does not check the status. A submitted application can be submitted again, which re-validates it and overwrites `submitted_at`.
- The backend's saved `data` is a map from field id to value. The carrier-schema table is a sequence in insertion order, and its query for the latest version is a fold over that sequence.
- BackendValidation.ValidateFields: the loop accumulates the new errors and returns `errors + added`. This is the list the source's in-place `extend` builds.

## Findings

| source | as written | input that shows it | evidently intended | confidence | as-written member | corrected member |
|---|---|---|---|---|---|---|
| ai-service/app/services/schema_adapter.py:186-194 | "contains" is mapped to "in", which tests the field's value against the literal with the membership reversed. "gt", "gte", "lt" and "lte" are passed on to an evaluator that does not know them and treats them as holding. | the leaf {field: riders, op: contains, value: gmwb} with riders = "gmwb" (a text, not a list) is false read as a leaf but true once converted; the leaf {field: age, op: gt, value: 60} with age = 50 is true | the converted condition holds exactly when the eApp leaf does | not executed | SchemaAdapter.LeafToConditionReversesContains, SchemaAdapter.LeafToConditionDropsOrdering | SchemaAdapter.LeafConditionKeepsMeaning |
