# WhatsApp campaign dashboard — verified model

A Dafny model of the logic inside a Next.js dashboard for WhatsApp marketing campaigns. The
dashboard lets an operator:

- create a campaign from an approved WhatsApp template and a pasted or uploaded contact list;
- map the template's `{{…}}` placeholders to contact fields;
- hand the campaign to an n8n webhook;
- browse the resulting conversations (contacts, messages grouped by day, lead-status ribbon);
- manage reusable GPT prompts.

The model has one module per source file, plus three shared ones:

- `Wrappers` defines `Option` and `Result`.
- `Strings` covers the JavaScript string operations the code relies on: `trim`, `split`, case
  mapping, `includes`, `startsWith`, `replace` and number printing.
- `Seqs` holds the sequence toolkit:
  - `Filter`;
  - an insertion-ordered set built by "push unless included" (`PushAll` and `Dedup`);
  - a generic in-place insertion sort;
  - `FlatMap`.

Databases, HTTP calls, clocks, random numbers and locales are not modelled as such. Their
results enter the model as parameters:

- existing and inserted rows;
- a webhook outcome (answered with a status, or threw);
- the current time;
- a day-key function;
- the generated lead ids.

Stateful React components are classes whose fields are the component's state. Their methods
are the event handlers, and each method's `ensures` gives the whole new state. Pure helpers
are functions. Each helper's meaning is proved in lemmas beside it:

- round trips (pasted contact lines, cookie strings);
- exact characterisations (phone validation, page window, placeholder extraction);
- ordering facts (first-occurrence order, sorted by time or by `order`);
- "nothing else changes" facts.

## Model

| member | source | states |
|---|---|---|
| PhoneNumbers.Clean | src/lib/campaign-service.ts:143 | the cleaned number holds only digits and `+`, keeps exactly the input's digits in order, and holds a `+` iff the input does |
| PhoneNumbers.CleanFixpoint | src/lib/campaign-service.ts:143 | cleaning a string made only of digits and `+` returns it unchanged |
| PhoneNumbers.FormatPhoneNumber | src/lib/campaign-service.ts:141-152 | the result starts with `+`, holds only digits and `+`, has the input's digits in order; it is the cleaned string when that starts with `+`, otherwise `+` followed by it |
| PhoneNumbers.ValidateCharacterization | src/lib/campaign-service.ts:134-138 | the check accepts exactly `+` followed by 7 to 15 digits whose first is not `0` |
| PhoneNumbers.ValidatePhoneNumber | src/lib/campaign-service.ts:134-138 | definition of the E.164 test: `+`, a digit 1-9, then 6 to 14 digits |
| PhoneNumbers.ValidateRejects | src/lib/campaign-service.ts:136 | a `0` after the `+`, or any non-digit after it, is rejected |
| PhoneNumbers.FormatIdempotent | src/lib/campaign-service.ts:141-152 | formatting a formatted number changes nothing |
| PhoneNumbers.ValidIsFormatted | src/lib/campaign-service.ts:134-152 | a number that passes the check formats to itself |
| PhoneNumbers.FormattedValidIff | src/lib/campaign-service.ts:134-152 | a formatted number passes the check iff it is `+` and the input's digits, 7 to 15 of them, not starting with `0` |
| PhoneNumbers.NoDigitsInvalid | src/lib/campaign-service.ts:141-152 | input without digits never formats to a valid number; without a `+` either, it formats to `"+"` |
| ContactParsing.RunLength | src/components/campaigns/CreateCampaignForm.tsx:74 | the run found is the longest from its start: every character in it passes, and the next one, if any, does not (where a greedy `+` or `{2,}` stops) |
| ContactParsing.SplitFrom | src/components/campaigns/CreateCampaignForm.tsx:74 | the splitting loop of `split` from a field start and a match position always yields at least one field |
| ContactParsing.SeparatorAt | src/components/campaigns/CreateCampaignForm.tsx:74 | the field separator (a run of commas and tabs, or two or more whitespace characters) matches at a position iff a comma or tab, or two whitespace characters, start there |
| ContactParsing.SplitFields | src/components/campaigns/CreateCampaignForm.tsx:74 | `split` with the separator regex always yields at least one field |
| ContactParsing.TrimAll | src/components/campaigns/CreateCampaignForm.tsx:74 | every field is trimmed and their number is kept |
| ContactParsing.SplitSingleIff | src/components/campaigns/CreateCampaignForm.tsx:74 | the split from a position yields one field iff the separator matches nowhere after it |
| ContactParsing.OneFieldIff | src/components/campaigns/CreateCampaignForm.tsx:74-89 | a line is a single field (phone only) iff it has no comma, no tab and no two adjacent whitespace characters |
| ContactParsing.ParseLine | src/components/campaigns/CreateCampaignForm.tsx:70-89 | a blank line yields nothing, and any contact a line yields has a phone that passes the check |
| ContactParsing.ParseLines | src/components/campaigns/CreateCampaignForm.tsx:69-92 | at most one contact per line, each with a valid phone |
| ContactParsing.ParseLinesAppend | src/components/campaigns/CreateCampaignForm.tsx:69-90 | the contacts of two blocks of lines are those of the first block followed by those of the second (line order is kept) |
| ContactParsing.ParseLinesAtMostNonBlank | src/components/campaigns/CreateCampaignForm.tsx:71 | there are never more contacts than non-blank lines |
| ContactParsing.ContactOfLine | src/components/campaigns/CreateCampaignForm.tsx:70-89 | the `forEach` body produces exactly the contact the line defines |
| ContactParsing.ParseContactsFromText | src/components/campaigns/CreateCampaignForm.tsx:65-93 | the loop collects the contacts of the trimmed text's lines, in line order |
| ContactParsing.SplitNameAndPhone | src/components/campaigns/CreateCampaignForm.tsx:74-78 | `Name,+phone` with a plain name splits into exactly the name and the phone |
| ContactParsing.SplitPhoneOnly | src/components/campaigns/CreateCampaignForm.tsx:74 | a valid phone number alone is a single field |
| ContactParsing.ParsePhoneLine | src/components/campaigns/CreateCampaignForm.tsx:83-88 | a valid phone alone on a line is a contact without a name |
| ContactParsing.ParseNamedLine | src/components/campaigns/CreateCampaignForm.tsx:76-82 | `Name,+phone` yields the contact whose name is field 0 and whose phone is field 1 |
| ContactParsing.ParseContactLine | src/components/campaigns/CreateCampaignForm.tsx:70-89 | the line written for a well-formed contact parses back to that contact |
| ContactParsing.ParseContactLines | src/components/campaigns/CreateCampaignForm.tsx:69-92 | the lines of well-formed contacts parse back to exactly those contacts, in order |
| ContactParsing.ContactTextLines | src/components/campaigns/CreateCampaignForm.tsx:66 | joining the lines with line feeds, trimming and splitting gives the lines back |
| ContactParsing.ParseContactText | src/components/campaigns/CreateCampaignForm.tsx:65-93 | the text of well-formed contacts' lines round-trips through `parseContactsFromText` |
| CampaignForm.DetailsError | src/components/campaigns/CreateCampaignForm.tsx:147-157 | definition: the name check, then the template check, each on trimmed text |
| CampaignForm.DetailsErrorIff | src/components/campaigns/CreateCampaignForm.tsx:147-157 | the details step may be left iff name and template are non-blank; a blank name is reported first |
| CampaignForm.Following | src/components/campaigns/CreateCampaignForm.tsx:156-163 | "next" moves details→contacts→review; only the review step has no next step |
| CampaignForm.Preceding | src/components/campaigns/CreateCampaignForm.tsx:232-240 | "back" moves review→contacts→details; only the details step leaves the page |
| CampaignForm.StepsInverse | src/components/campaigns/CreateCampaignForm.tsx:146-240 | "back" undoes "next" and "next" undoes "back" |
| CampaignForm.RemoveAt | src/components/campaigns/CreateCampaignForm.tsx:142-144 | removing an index in range drops exactly that element; any other index changes nothing |
| CampaignForm.RemoveAtKeepsOthers | src/components/campaigns/CreateCampaignForm.tsx:142-144 | removal shortens the list by one and keeps the others in order |
| CampaignForm.ReviewCountsAddUp | src/components/campaigns/CreateCampaignForm.tsx:524-535 | "With Names" plus "Phone Only" equals "Total Contacts" |
| CampaignForm.BuildRequest | src/components/campaigns/CreateCampaignForm.tsx:171-180 | one request contact per contact, with its name and phone |
| CampaignForm.RequestTemplateId | src/components/campaigns/CreateCampaignForm.tsx:174 | `template_id` is the chosen id when non-empty, else the template name, so never empty while a template is chosen |
| CampaignForm.SubmitFeedback | src/components/campaigns/CreateCampaignForm.tsx:196-228 | definition: the message shown for each answer, built as the submit handler builds it |
| CampaignForm.SubmitFeedbackCases | src/components/campaigns/CreateCampaignForm.tsx:196-226 | only a 2xx answer with `success` is a success; every failure message carries the "Failed to create campaign: " prefix |
| CampaignForm.CreateCampaignForm.constructor | src/components/campaigns/CreateCampaignForm.tsx:28-43 | the form starts on the details step, empty, with language `en_US` and no id |
| CampaignForm.CreateCampaignForm.OnTemplateChange | src/components/campaigns/CreateCampaignForm.tsx:344-347 | the picker's callback sets name and language, and the id falls back to `''` |
| CampaignForm.CreateCampaignForm.HandleContactsImport | src/components/campaigns/CreateCampaignForm.tsx:95-99 | the contacts become the parsed text and the text box is cleared; nothing else changes |
| CampaignForm.CreateCampaignForm.ProcessFile | src/components/campaigns/CreateCampaignForm.tsx:109-125 | a file that is neither text, `.csv` nor `.txt` sets the error; a non-empty text replaces the contacts and clears the error |
| CampaignForm.CreateCampaignForm.RemoveContact | src/components/campaigns/CreateCampaignForm.tsx:142-144 | only the contact list changes, by `RemoveAt` |
| CampaignForm.CreateCampaignForm.GoBack | src/components/campaigns/CreateCampaignForm.tsx:232-240 | the step moves back, and the page is left only from the details step |
| CampaignForm.CreateCampaignForm.HandleSubmit | src/components/campaigns/CreateCampaignForm.tsx:146-230 | details: first failing check sets the error, else moves on; contacts: moves to review; review: sends the request and shows its feedback, loading reset |
| CampaignForm.ValidFormSendsTemplateName | src/components/campaigns/CreateCampaignForm.tsx:344-347 | since the picker's callback (lines 344-347) never gives an id, the fallback of line 174 applies: the request's `template_id` is always the template name |
| CampaignCreation.CampaignRowOf | src/app/api/campaigns/route.ts:94-103 | the campaign row is always a `draft`; `scheduled_at` and `prompt_id` appear only when truthy; `auto_reply` is on only when sent as true |
| CampaignCreation.PhoneOf | src/app/api/campaigns/route.ts:171 | the phone is the first truthy of `phone_number`, `phone`, `Phone`, else `''` |
| CampaignCreation.Normalize | src/app/api/campaigns/route.ts:164-174 | name defaults to `''`, a truthy lead id is kept (else the generated one), custom fields default to none, status is `new` |
| CampaignCreation.NormalizeAll | src/app/api/campaigns/route.ts:157-175 | one normalised row per submitted contact, in order |
| CampaignCreation.LeadIdKept | src/app/api/campaigns/route.ts:166 | a submitted lead id survives; a missing or empty one is replaced by the generated id |
| CampaignCreation.LookupPhones | src/app/api/campaigns/route.ts:180 | the looked-up phones are exactly the non-empty phones of the rows; `''` is never looked up |
| CampaignCreation.StoredPhones | src/app/api/campaigns/route.ts:200 | the set holds exactly the phones of the stored contacts found |
| CampaignCreation.NewContacts | src/app/api/campaigns/route.ts:199-201 | a row is inserted iff its phone is not among the stored contacts' phones |
| CampaignCreation.NewContactsKeepOrder | src/app/api/campaigns/route.ts:201 | the rows to insert are an order-preserving subsequence of the submitted rows |
| CampaignCreation.EmptyPhoneAlwaysNew | src/app/api/campaigns/route.ts:180-201 | when the stored contacts found answer the lookup, and since the lookup never includes `''`, a contact without a phone is always inserted as new |
| CampaignCreation.ResolveValue | src/app/api/campaigns/route.ts:278-287 | `name` gives the name or `''`, `phone_number` the phone, any other field its truthy custom value, else `''` |
| CampaignCreation.BuiltInFieldsWin | src/app/api/campaigns/route.ts:281-287 | a custom field named `name` never shadows the contact's name |
| CampaignCreation.GenerateTemplateParams | src/app/api/campaigns/route.ts:272-295 | one `text` parameter per mapping, in order, with its `parameter_name` and resolved value; none for no mappings |
| CampaignCreation.TemplateType | src/app/api/campaigns/route.ts:256-269 | the lower-cased `parameter_format` of the first catalogue entry with the template's name, `''` when unread, absent or without format |
| CampaignCreation.Payload | src/app/api/campaigns/route.ts:298-314 | one item per webhook contact, in order, with its name, phone, lead id and parameters, all sharing the campaign-wide members |
| CampaignCreation.CreateCampaign | src/app/api/campaigns/route.ts:26-385 | the staged pipeline: 401 without a session; campaign row written first; contacts checked and only new ones inserted; webhook list = inserted then existing, with counts of all, new and existing; when the stored contacts answer the lookup, every contact without a phone is among the rows inserted; the response chosen by the first failing stage or the webhook's outcome |
| CampaignCreation.NoContactDropped | src/app/api/campaigns/route.ts:199-235 | when the insert returns a stored row for every contact it was asked to insert, every submitted contact's phone is among the contacts sent to the webhook, found stored or newly inserted |
| CampaignCreation.StagedResponses | src/app/api/campaigns/route.ts:187-364 | `success:false` with status 500 exactly for the two contact-stage failures; `success:true` otherwise after the contacts, with `webhookError` unless the webhook accepted |
| WhatsAppApi.CloseFrom | src/lib/whatsapp-api.ts:44 | the first `}` at or after a position (or the end): no `}` lies before it |
| WhatsAppApi.CloseFromUnique | src/lib/whatsapp-api.ts:44 | any position holding `}` with none before it is the one `CloseFrom` finds |
| WhatsAppApi.MatchEnd | src/lib/whatsapp-api.ts:44 | a match spans at least five characters and ends inside the text |
| WhatsAppApi.NextMatch | src/lib/whatsapp-api.ts:50 | `exec` from `lastIndex` finds the first position at or after it where the placeholder regex matches, and none before |
| WhatsAppApi.MatchKey | src/lib/whatsapp-api.ts:51 | the trimmed key of a match never contains `}` |
| WhatsAppApi.TokensFrom | src/lib/whatsapp-api.ts:50-56 | each match consumes at least five characters, so the tokens found from a position number at most a fifth of the text after it |
| WhatsAppApi.Exec | src/lib/whatsapp-api.ts:50 | a successful `exec` moves `lastIndex` strictly forward, within the text |
| WhatsAppApi.MatchTokenShape | src/lib/whatsapp-api.ts:51-52 | every token built from a match is `{{k}}` with `k` trimmed and free of `}` |
| WhatsAppApi.TokensWellFormed | src/lib/whatsapp-api.ts:50-56 | all tokens of one text are well formed |
| WhatsAppApi.ComponentTokens | src/lib/whatsapp-api.ts:47 | a component without text contributes no token |
| WhatsAppApi.AllTokensWellFormed | src/lib/whatsapp-api.ts:46-58 | all tokens of all components are well formed |
| WhatsAppApi.AllTokensSnoc | src/lib/whatsapp-api.ts:46 | the tokens of one more component follow those of the earlier ones |
| WhatsAppApi.ExtractPlaceholders | src/lib/whatsapp-api.ts:40-61 | the loops return the distinct tokens of all components' texts in first-occurrence order (`Dedup` of the token stream) |
| WhatsAppApi.AddTextPlaceholders | src/lib/whatsapp-api.ts:50-56 | the `exec` loop of one text appends each of its tokens not yet included, in order |
| WhatsAppApi.PlaceholdersWellFormed | src/lib/whatsapp-api.ts:51-55 | every placeholder is a well-formed token and none repeats |
| WhatsAppApi.PlaceholdersInFirstOccurrenceOrder | src/lib/whatsapp-api.ts:46-57 | placeholders are ordered by their first occurrence: components in order, then left to right |
| WhatsAppApi.TextlessComponentIgnored | src/lib/whatsapp-api.ts:47 | appending a component without text changes no token |
| WhatsAppApi.PaddingInsignificant | src/lib/whatsapp-api.ts:44-52 | whitespace around a key is dropped: `{{ k }}` gives the single token `{{k}}` |
| WhatsAppApi.StatusBadgeVariant | src/lib/whatsapp-api.ts:64-76 | APPROVED, PENDING, REJECTED, DISABLED map to success, warning, destructive, secondary (each iff), anything else to outline |
| ParameterMapping.Keys | src/components/campaigns/TemplateParameterMapping.tsx:54 | `Object.keys`: one key per custom field, in the order the record lists its fields |
| ParameterMapping.Lookup | src/app/api/campaigns/route.ts:285-286 | a field is found iff its key is present, and the value found is stored under that key |
| ParameterMapping.AvailableFields | src/components/campaigns/TemplateParameterMapping.tsx:46-61 | the `Set` built by the loops is `name`, `phone_number`, then every custom key, each once, in first-seen order |
| ParameterMapping.AddKeys | src/components/campaigns/TemplateParameterMapping.tsx:54-56 | the inner loop adds each key not yet present, in order |
| ParameterMapping.AvailableFieldsShape | src/components/campaigns/TemplateParameterMapping.tsx:46-61 | the fields start with `name` and `phone_number`, have no duplicates, and hold exactly the built-in and custom keys |
| ParameterMapping.RemoveBraces | src/components/campaigns/TemplateParameterMapping.tsx:100 | the result has no brace, is a subsequence of the placeholder holding exactly its other characters, and is shorter by exactly the number of braces |
| ParameterMapping.ParameterName | src/components/campaigns/TemplateParameterMapping.tsx:100-105 | a parameter name never contains a brace |
| ParameterMapping.ParameterNameShape | src/components/campaigns/TemplateParameterMapping.tsx:100-105 | an all-digit bare name gets the `param_` prefix, any other is the bare text |
| ParameterMapping.RemoveBracesKeepsPlain | src/components/campaigns/TemplateParameterMapping.tsx:100 | text without braces is left unchanged |
| ParameterMapping.InitialMappings | src/components/campaigns/TemplateParameterMapping.tsx:98-113 | one unmapped `text` mapping per placeholder, in order, named by its parameter name |
| ParameterMapping.MappingsAfterLoad | src/components/campaigns/TemplateParameterMapping.tsx:97-115 | initial mappings replace only an empty list; an existing list is kept |
| ParameterMapping.HasUnmappedParameters | src/components/campaigns/TemplateParameterMapping.tsx:146 | true iff some mapping has an empty `mapped_field` |
| ParameterMapping.InitialMappingsUnmapped | src/components/campaigns/TemplateParameterMapping.tsx:97-146 | freshly proposed mappings are unmapped iff there is a placeholder |
| ParameterMapping.UpdateMapping | src/components/campaigns/TemplateParameterMapping.tsx:130-138 | only the entry at `index` changes, and only in `mapped_field` or `parameter_name`; any other field name changes nothing; the length is kept |
| ParameterMapping.MappingLastUnmapped | src/components/campaigns/TemplateParameterMapping.tsx:130-146 | mapping the last unmapped entry to a non-empty field clears the warning |
| ParameterMapping.FieldDisplayName | src/components/campaigns/TemplateParameterMapping.tsx:140-144 | `name` shows as Name, `phone_number` as Phone Number, others as themselves |
| ParameterMapping.DisplayNameCollisions | src/components/campaigns/TemplateParameterMapping.tsx:46-61 | two available fields show the same label iff they are `name` and a custom key `Name`, or `phone_number` and a custom key `Phone Number`; all other labels are distinct |
| TemplateSelect.ApprovedTemplates | src/components/campaigns/TemplateSelect.tsx:78 | a template is offered iff it is in the catalogue and APPROVED |
| TemplateSelect.ApprovedKeepsOrder | src/components/campaigns/TemplateSelect.tsx:78 | the offered templates keep the catalogue's order |
| TemplateSelect.FindByName | src/components/campaigns/TemplateSelect.tsx:89 | `find` fails iff no template has the name; otherwise it returns one of them with that name |
| TemplateSelect.FindByNameFirst | src/components/campaigns/TemplateSelect.tsx:89 | `find` returns the first template with the name |
| TemplateSelect.HandleTemplateSelect | src/components/campaigns/TemplateSelect.tsx:88-93 | a name not offered does nothing; otherwise the callback gets the name and that template's language, and no id |
| TemplateSelect.SelectedIsApproved | src/components/campaigns/TemplateSelect.tsx:78-93 | a template the picker reports is an APPROVED template of the catalogue |
| TemplateSelect.PreviewComponents | src/components/campaigns/TemplateSelect.tsx:147-148 | the preview shows exactly the BODY components |
| PromptSelect.FindById | src/components/campaigns/PromptSelect.tsx:51 | `find` fails iff no prompt has the id; otherwise it returns a prompt with that id |
| PromptSelect.FindByIdFirst | src/components/campaigns/PromptSelect.tsx:51 | `find` returns the first prompt with the id |
| PromptSelect.HandlePromptChange | src/components/campaigns/PromptSelect.tsx:45-55 | `none` reports `('', '')`; a known id reports the id and the name of a prompt with that id; an unknown id reports nothing |
| PromptSelect.HandlePromptChangeFirst | src/components/campaigns/PromptSelect.tsx:45-55 | a known id reports the name of the first prompt with that id |
| PromptSelect.DisplayedValue | src/components/campaigns/PromptSelect.tsx:71 | the control shows the selected id, or `none` when there is none |
| PromptSelect.NoneRoundTrip | src/components/campaigns/PromptSelect.tsx:45-71 | choosing `none` clears the selection, which then shows `none` again |
| PromptsApi.ValidationError | src/app/api/prompts/route.ts:57-80 | definition: the error of the first failing stage (presence, then blankness, then the model) |
| PromptsApi.ValidationIff | src/app/api/prompts/route.ts:58-80 | a body passes iff its name is non-blank, its model is `gpt-4.1` and its message is present and non-empty (whitespace allowed) |
| PromptsApi.ValidationOrder | src/app/api/prompts/route.ts:58-80 | presence is checked before emptiness, emptiness before the model, and the first failure decides the message |
| PromptsApi.PromptData | src/app/api/prompts/route.ts:82-88 | the stored name is trimmed and non-empty, the model is `gpt-4.1`, the message is stored verbatim, both dates are now |
| PromptsApi.CreatePrompt | src/app/api/prompts/route.ts:50-123 | an unreadable body is a 500; a failed validation is a 400 with its message and no insert; otherwise the shaped row is inserted and the insert's outcome decides |
| PromptsApi.OnlyValidStored | src/app/api/prompts/route.ts:58-94 | only a `gpt-4.1` body with a name and a message reaches the insert, and 400 is given exactly for a failed validation |
| PromptForm.ErrorsFor | src/components/prompts/PromptForm.tsx:33-47 | a name error iff the name is blank, a model error iff the model is blank, a message error iff the message is empty (no trim), each with its text |
| PromptForm.FormAgreesWithEndpoint | src/components/prompts/PromptForm.tsx:33-50 | the endpoint accepts the form's data iff the form shows no error and the model is `gpt-4.1` |
| PromptForm.PromptFormState.constructor | src/components/prompts/PromptForm.tsx:25-31 | the form starts from the initial data, missing members as `''`, with no errors |
| PromptForm.PromptFormState.ValidateForm | src/components/prompts/PromptForm.tsx:33-50 | the errors become those of the data, and the form is valid iff none was set |
| PromptForm.PromptFormState.HandleSubmit | src/components/prompts/PromptForm.tsx:52-60 | `onSubmit` gets the data exactly when validation passes |
| PromptForm.PromptFormState.HandleInputChange | src/components/prompts/PromptForm.tsx:62-75 | only the named field changes, only its error is cleared (if shown), the other errors stay |
| PromptForm.ShownErrorsAreCleared | src/components/prompts/PromptForm.tsx:36-75 | every validation message is non-empty, so typing into the field always clears it |
| SendMessage.Payload | src/app/api/messages/send/route.ts:24-31 | `lead_id` and `message_content` are copied, `name` and `Phone` default to `''`, `campaign_id` to null; no template member exists |
| SendMessage.Send | src/app/api/messages/send/route.ts:3-86 | 400 iff `lead_id` or `message_content` is falsy; the payload is posted iff the guard passed; the webhook's outcome picks the response |
| SendMessage.SentIffAccepted | src/app/api/messages/send/route.ts:14-71 | success iff a valid request met a 2xx webhook answer, carrying its result; status 200 iff success |
| UserSchema.SettledValue | src/lib/user-schema.ts:46-67 | an attempt that ends the lookup answers a name iff it fetched a non-empty `schema_name`, and then exactly that name |
| UserSchema.GetUserSchema | src/lib/user-schema.ts:26-80 | the retry loop gives the answer and the number of queries of the lookup definition: first row or "no row" error decides, other failures retry until `retries` |
| UserSchema.LookupBounded | src/lib/user-schema.ts:27-79 | at most `retries` queries are made, none when `retries` is not positive |
| UserSchema.LookupFirstSettled | src/lib/user-schema.ts:42-67 | the first attempt within the budget that fetched or met `PGRST116`/"Row not found" decides the answer, and no query follows it |
| UserSchema.LookupExhausted | src/lib/user-schema.ts:51-79 | when every attempt fails otherwise, all `retries` queries are made and the answer is null |
| UserSchema.LookupAnswerFetched | src/lib/user-schema.ts:60-67 | a name is only answered when some attempt fetched exactly that non-empty name |
| UserSchema.CookieAttributes | src/lib/user-schema.ts:88 | the attributes are `; path=/; max-age=` with seven days in seconds, `; SameSite=Lax`, and `; Secure` exactly in production |
| UserSchema.SchemaCookie | src/lib/user-schema.ts:88 | the cookie string is `user_schema=<name>` followed by exactly those attributes, ending with `; Secure` iff in production |
| UserSchema.MaxAgeText | src/lib/user-schema.ts:88 | seven days in seconds prints as `604800` |
| UserSchema.SetUserSchemaCookie | src/lib/user-schema.ts:85-98 | a cookie is written, and success reported, iff a document exists; the string written is the schema cookie |
| UserSchema.RemoveUserSchemaCookie | src/lib/user-schema.ts:115-128 | a cookie is written iff a document exists, and it is `user_schema=; path=/; expires=` the Unix epoch (1 January 1970) |
| UserSchema.GetUserSchemaCookie | src/lib/user-schema.ts:103-110 | a value is read only when some `;`-separated entry, trimmed, starts with `user_schema=` |
| UserSchema.SchemaEntryMatches | src/lib/user-schema.ts:107 | a padded `user_schema=<name>` entry is recognised as the schema entry |
| UserSchema.SchemaEntryValue | src/lib/user-schema.ts:109 | splitting that entry on `=` gives two parts, the second being the name |
| UserSchema.CookieRoundTrip | src/lib/user-schema.ts:88-110 | the name written into the schema entry is read back from a cookie list whose earlier entries are other cookies |
| UserSchema.SplitAround | src/lib/user-schema.ts:106 | a cookie list joined with `;` splits back into its entries |
| UserSchema.WrittenCookieReadBack | src/lib/user-schema.ts:88-110 | the name/value pair of the cookie the setter writes is the schema entry, and the getter reads the name back from it |
| UserSchema.SchemaCookiePair | src/lib/user-schema.ts:88 | the part of the written cookie before its first `;` is `user_schema=<name>` |
| UserSchema.RemovalCookieShape | src/lib/user-schema.ts:118 | the removal cookie's pair is `user_schema=` with an empty value, and it ends with an expiry at the Unix epoch |
| UserSchema.Lookup | src/lib/user-schema.ts:27-79 | reference definition of the retry loop: attempt by attempt, the first row or no-row error settles, otherwise the next attempt, until `retries` |
| UserSchema.NoSuchRow | src/lib/user-schema.ts:46 | definition: an error with code `PGRST116` or a message containing `Row not found` |
| UserSchema.IsSchemaEntry | src/lib/user-schema.ts:107 | definition: the trimmed entry starts with `user_schema=` |
| ContactList.WindowStart | src/components/messages/ContactList.tsx:145-155 | the window starts at page 1 with at most 5 pages, and otherwise between page 1 and the fifth page from the end |
| ContactList.ControlsShown | src/components/messages/ContactList.tsx:129 | definition: controls only for more than one page |
| ContactList.PreviousEnabled | src/components/messages/ContactList.tsx:138 | definition: Previous is disabled on page 1 |
| ContactList.NextEnabled | src/components/messages/ContactList.tsx:175 | definition: Next is disabled on the last page |
| ContactList.WindowSize | src/components/messages/ContactList.tsx:145 | the window has `min(5, totalPages)` buttons, at most 5 |
| ContactList.PageWindow | src/components/messages/ContactList.tsx:145-155 | one button per window slot, numbered consecutively from the window's first page |
| ContactList.WindowWellFormed | src/components/messages/ContactList.tsx:145-155 | for a current page in range, the window pages are consecutive, within `1..totalPages`, and include the current page |
| ContactList.WindowPlacement | src/components/messages/ContactList.tsx:147-155 | with more than 5 pages: 1..5 when the current page is at most 3, the last five near the end, otherwise centred on the current page |
| ContactList.HandlePageChange | src/components/messages/ContactList.tsx:74-78 | a page is forwarded iff it lies in `1..totalPages`, and unchanged |
| ContactList.NeighboursInRange | src/components/messages/ContactList.tsx:136-175 | Previous is enabled iff the page before is forwarded, Next iff the page after is |
| DateUtils.EnsureUtc | src/lib/utils.ts:14 | the result contains `Z`; `Z` is appended iff the text has none anywhere (the same rule as ContactList.tsx line 8 and the three pages' `formatDate`) |
| DateUtils.EnsureUtcIdempotent | src/lib/utils.ts:14 | normalising twice is normalising once |
| DateUtils.TimeAgoOf | src/lib/utils.ts:21-36 | the buckets split at 1 minute, 60 minutes, 24 hours and 7 days (future times are "just now"); each shown N is the floored count, at least 1 and below its bucket's threshold (same code at ContactList.tsx lines 5-22) |
| DateUtils.TimeAgoText | src/lib/utils.ts:26-35 | `Just now`, `Nm ago`, `Nh ago`, `Nd ago`, or the locale date |
| DateUtils.FormatTimeAgo | src/lib/utils.ts:21-36 | from elapsed milliseconds to text: under a minute `Just now`, then the floored minutes, hours or days followed by `m ago`, `h ago` or `d ago`, and from seven days the locale date |
| DateUtils.DateGroupLabel | src/lib/utils.ts:67-84 | `Today` for today's day, else `Yesterday` for the previous day, else the long date |
| MessageView.DayKeys | src/components/messages/MessageView.tsx:48 | the day key of each message, in input order |
| MessageView.OnDay | src/components/messages/MessageView.tsx:49-52 | a day's list holds exactly the messages of that day |
| MessageView.KeyHasMessages | src/components/messages/MessageView.tsx:49-52 | a day that some message has holds at least one message |
| MessageView.AllKeysHaveMessages | src/components/messages/MessageView.tsx:49-52 | every day key of the input has a non-empty list |
| MessageView.GroupOf | src/components/messages/MessageView.tsx:55-59 | a group carries its day key and its messages |
| MessageView.Grouped | src/components/messages/MessageView.tsx:45-59 | one non-empty group per distinct day, in first-appearance order, each with that day's messages |
| MessageView.GroupMessagesByDate | src/components/messages/MessageView.tsx:39-60 | the `forEach` filling the `{ [day]: messages }` object, read back by `Object.entries`, gives exactly `Grouped`; a missing or empty list gives `[]` |
| MessageView.Entries | src/components/messages/MessageView.tsx:55-59 | `Object.entries(...).map`: one group per key, in key order, with that key's list |
| MessageView.BucketsOfMeaning | src/components/messages/MessageView.tsx:47-53 | after any prefix of the messages, the object's keys are exactly the days seen and each list is that day's messages in order |
| MessageView.BucketsOfUnfold | src/components/messages/MessageView.tsx:49-52 | one more message adds its day if new and appends itself to that day's list, leaving other days alone |
| MessageView.BucketsStep | src/components/messages/MessageView.tsx:47-53 | that step keeps the meaning of the object |
| MessageView.GroupsRead | src/components/messages/MessageView.tsx:45-59 | after the last message, the insertion-ordered keys are the distinct days and reading the object back gives `Grouped` |
| MessageView.GroupsPartition | src/components/messages/MessageView.tsx:47-53 | every message is in exactly one group, groups are non-empty, a group holds exactly the messages of its day |
| MessageView.GroupsOrdered | src/components/messages/MessageView.tsx:45-59 | groups follow the first appearance of their day and keep the input order inside |
| MessageView.GroupHeadings | src/components/messages/MessageView.tsx:57 | a group's heading is Today/Yesterday/long date, taken from its first message |
| MessageView.StatusIcon | src/components/messages/MessageView.tsx:62-75 | sent→✓, delivered and read→✓✓, failed→✗, case-insensitively; `''` iff the status is none of these |
| MessageView.StatusColor | src/components/messages/MessageView.tsx:77-90 | the colour of each status case-insensitively, `text-gray-300` otherwise |
| MessageView.StatusCaseInsensitive | src/components/messages/MessageView.tsx:63-78 | statuses equal up to case give the same icon and colour |
| MessageView.ShowsStatusIcon | src/components/messages/MessageView.tsx:191 | definition: an `Outgoing` message whose status has an icon |
| MessageView.StatusIconColor | src/components/messages/MessageView.tsx:192 | definition: `text-blue-200` for outgoing messages, the status colour otherwise |
| MessageView.ShowsUnreadDot | src/components/messages/MessageView.tsx:200 | definition: an unread message that is not `Outgoing` |
| MessageView.MarksExclusive | src/components/messages/MessageView.tsx:191-200 | no message shows both the status mark and the unread dot; a shown status mark is always `text-blue-200`; the dot shows iff the message is unread and not `Outgoing` |
| MessageService.WithHistory | src/lib/message-service.ts:42-46 | a record keeps the contact's name and lead id, has the latest message or none, and an unread count that defaults to 0 |
| MessageService.Records | src/lib/message-service.ts:24-48 | one record per fetched contact, in fetch order |
| MessageService.GetContacts | src/lib/message-service.ts:8-62 | a query error is rethrown; no contacts give `[]`; otherwise the result is a permutation of the records, sorted newest last message first |
| MessageService.LastActivity | src/lib/message-service.ts:51-55 | definition: the sort key, the time of the last message or 0 without one |
| MessageService.SilentContactsLast | src/lib/message-service.ts:51-55 | a contact without messages (keyed 0) comes after every contact whose last message has a positive time |
| MessageService.OneRecordEach | src/lib/message-service.ts:24-48 | the sorted result has one record per contact and every contact's name and lead id appear in it |
| LeadStatusRibbon.GenerateStatusColors | src/components/messages/LeadStatusRibbon.tsx:15-46 | the colours are always one of the ten palette entries, the entry at the display position for the first ten positions |
| LeadStatusRibbon.ColorsCycle | src/components/messages/LeadStatusRibbon.tsx:31 | positions ten apart get the same colours, whatever the status |
| LeadStatusRibbon.PaletteDistinct | src/components/messages/LeadStatusRibbon.tsx:17-31 | any ten consecutive positions get ten different colours |
| LeadStatusRibbon.SortedOptions | src/components/messages/LeadStatusRibbon.tsx:58 | the display order is a permutation of the options, ascending by `order` |
| LeadStatusRibbon.SegmentAt | src/components/messages/LeadStatusRibbon.tsx:92-113 | a segment is active iff it is the current status, disabled iff the ribbon is disabled or updating, coloured iff active, followed by a divider iff not last, and titled `Current status:` or `Change to` |
| LeadStatusRibbon.Segments | src/components/messages/LeadStatusRibbon.tsx:92-130 | one segment per option, in display order |
| LeadStatusRibbon.AtMostOneActive | src/components/messages/LeadStatusRibbon.tsx:93 | with distinct values at most one segment is active, and none without a current status |
| LeadStatusRibbon.Ribbon.constructor | src/components/messages/LeadStatusRibbon.tsx:48-55 | a new ribbon is not updating and has sent and reported nothing |
| LeadStatusRibbon.Ribbon.IgnoresClick | src/components/messages/LeadStatusRibbon.tsx:61 | definition: a click on the current status, during an update, or while disabled is ignored |
| LeadStatusRibbon.Ribbon.StartStatusClick | src/components/messages/LeadStatusRibbon.tsx:60-71 | a click starts an update iff it is not on the current status, not during an update and not disabled; a started click marks the ribbon updating and requests exactly the new status |
| LeadStatusRibbon.Ribbon.FinishStatusClick | src/components/messages/LeadStatusRibbon.tsx:73-85 | the parent hears of the new status iff the update succeeded; the ribbon stops updating either way |
| LeadStatusRibbon.ClickDuringUpdateIgnored | src/components/messages/LeadStatusRibbon.tsx:61 | during an update every click is ignored, so requests never overlap |
| CampaignsPage.ScheduledText | src/app/campaigns/page.tsx:171-177 | `Immediate` without a schedule; otherwise the locale text of the time read as UTC (`formatDate`, line 52) |
| CampaignsPage.ScheduledReadAsUtc | src/app/campaigns/page.tsx:52-58 | a stored schedule is formatted from a text that contains `Z` and extends the stored text, appending `Z` only when it had none |
| CampaignsPage.WithAutoReply | src/app/campaigns/page.tsx:78-84 | same length; the campaign with the id gets the new value and every other campaign is unchanged |
| CampaignsPage.CampaignsPageState.constructor | src/app/campaigns/page.tsx:22-24 | the loaded list, nothing updating |
| CampaignsPage.CampaignsPageState.StartToggle | src/app/campaigns/page.tsx:63 | the campaign is marked as updating and the list is untouched |
| CampaignsPage.CampaignsPageState.FinishToggle | src/app/campaigns/page.tsx:73-90 | on success the campaign takes the opposite of the value it was toggled from, on failure the list is kept; nothing is updating afterwards |
| CampaignsPage.AutoReplyOn | src/app/campaigns/page.tsx:163 | definition: the switch is on iff `auto_reply` is `true`, a missing value counting as off |
| CampaignsPage.CampaignsPageState.ToggleDisabled | src/app/campaigns/page.tsx:165 | definition: a campaign's switch is disabled while its own update is in flight |
| CampaignsPage.ToggleFlipsSwitch | src/app/campaigns/page.tsx:163-164 | with distinct ids, toggling from the displayed position flips that campaign's switch and no other row changes |
| CampaignsPage.ToggleTwice | src/app/campaigns/page.tsx:163-164 | two toggles bring the switch back |
| TemplatesPage.MatchesSearch | src/app/templates/page.tsx:143 | definition: the lowercased name contains the lowercased search term |
| TemplatesPage.MatchesStatus | src/app/templates/page.tsx:144 | definition: the filter is `all` or exactly the template's status |
| TemplatesPage.FilteredTemplates | src/app/templates/page.tsx:141-147 | a template is shown iff it is listed, its lowercased name contains the lowercased search term, and the filter is `all` or its status; never more than the list |
| TemplatesPage.FilterKeepsOrder | src/app/templates/page.tsx:142-146 | the shown templates are a subsequence of the list |
| TemplatesPage.UnfilteredShowsAll | src/app/templates/page.tsx:142-146 | an empty search with `all` shows the whole list unchanged |
| TemplatesPage.AllShownIff | src/app/templates/page.tsx:141-147 | the filtered list is as long as the full list iff every template passes both filters |
| TemplatesPage.SearchIsSubstring | src/app/templates/page.tsx:143 | the search matches iff the lowercased term occurs at some position of the lowercased name |
| TemplatesPage.LanguageLabel | src/app/templates/page.tsx:272 | the tag has the length of the language code; without `_` it is the code uppercased |
| TemplatesPage.LanguageLabelAt | src/app/templates/page.tsx:272 | only the first `_` becomes `-`, then everything is uppercased |
| TemplatesPage.UseTemplateEnabled | src/app/templates/page.tsx:309 | definition: `Use Template` is enabled only for `APPROVED` templates |
| TemplatesPage.UseTemplateMatchesBadge | src/app/templates/page.tsx:309 | `Use Template` is enabled iff the status badge is the success variant |
| TemplatesPage.PlaceholderBadges | src/app/templates/page.tsx:285-300 | `None` iff there are no placeholders; otherwise the first (at most) three are shown, and `+N more` appears iff there are more than three, with N the count past three |
| TemplatesPage.HiddenPlaceholdersCounted | src/app/templates/page.tsx:287-296 | past three placeholders, shown and hidden badges make up the whole list and `+N more` counts exactly the hidden ones |
| HomePage.ToComponent | src/app/page.tsx:155-163 | a component keeps its type and text; its format is kept iff present and non-empty |
| HomePage.ToTemplate | src/app/page.tsx:149-165 | a template keeps id, name, language, status and category, and converts each component in order |
| HomePage.RealTemplates | src/app/page.tsx:149 | one template per catalogue entry, in order |
| HomePage.ConversionKeepsPlaceholders | src/app/page.tsx:155-163 | after conversion each component still yields exactly the placeholders of its own text |
| HomePage.ShowingCounts | src/app/page.tsx:378 | `Showing X of Y`: X is the number of templates the filters show, Y the number listed; X equals Y iff every template passes both filters |
| HomePage.ShowingAllUnfiltered | src/app/page.tsx:378 | with an empty search and `all` the summary reads `Showing Y of Y` |
| PromptsPage.TruncateMessage | src/app/prompts/page.tsx:60-63 | a message within the limit is shown whole, a longer one as its first `maxLength` characters and `...` |
| PromptsPage.PreviewShape | src/app/prompts/page.tsx:60-63 | a preview is at most the limit plus three characters and begins with as much of the message as the limit allows |
| PromptsPage.ListPreview | src/app/prompts/page.tsx:128 | the list's previews (default limit 100) are at most 103 characters, and messages of up to 100 characters are shown unchanged |
| Sidebar.IsActive | src/components/layout/Sidebar.tsx:185-186 | definition: the path equals the link, or the link is not `/` and is a prefix of the path |
| Sidebar.RootOnlyOnRoot | src/components/layout/Sidebar.tsx:185-186 | Templates (`/`) is highlighted iff the path is exactly `/` |
| Sidebar.OtherEntriesByPrefix | src/components/layout/Sidebar.tsx:185-186 | every other entry is highlighted iff its link is a plain string prefix of the path |
| Sidebar.PlainPrefixExample | src/components/layout/Sidebar.tsx:185-186 | `/campaignsX` and `/campaigns/new` both highlight Campaigns; `/campaigns` does not highlight Templates |
| Sidebar.AtMostOneActive | src/components/layout/Sidebar.tsx:26-51 | with the four links of the navigation, at most one entry is highlighted on any path |
| Sidebar.UserDisplayName | src/components/layout/Sidebar.tsx:56-62 | `User` without an address; otherwise the full name, else the first name, else the address up to its first `@` (empty names count as missing) |
| Sidebar.NameFromAddress | src/components/layout/Sidebar.tsx:60 | with no names, the user is called by the part of the address before `@` |

## Left out

- Database access: Supabase queries, inserts and upserts are not modelled. Their results enter as parameters: the rows found, the rows inserted, or the error. This includes the table check in the campaign route and the contacts and messages queries of `MessageService.getContacts`.
- Outbound HTTP: each call to the n8n webhooks, the status-update `PUT`, the auto-reply `PATCH` and the WhatsApp catalogue fetch is reduced to its outcome. The outcome is answered with a status and a body, or the call threw.
- Response bodies: only the fields that reach a decision are kept. Headers and `console` logging are left out.
- Authentication, sessions, middleware and the `document.cookie` writes are left out. The cookie strings the writes would set are modelled.
- Clocks, time zones and locales: `new Date()`, `Date.now()`, `toLocaleDateString` and `toLocaleTimeString` are inputs. They enter as the current time in milliseconds, a day-key function and a locale formatting function, so the model says nothing about calendar arithmetic.
- Generated lead ids: the `Date.now()`/`Math.random()` ids are inputs.
- `setTimeout`: the delays in `getUserSchema`, the template picker's simulated load and the wizard's redirect after success have no effect on the modelled state.
- Parallelism: the `Promise.all` of `MessageService.getContacts` is modelled as a sequential map, which gives the same order of results.
- `MessageService.GetContacts`: states sorted and a permutation, not the stability of `Array.prototype.sort`. Contacts with equal times may appear in any order.
- `LeadStatusRibbon.SortedOptions`: states sorted and a permutation, not the stability of the sort.
- Non-finite times: `NaN` timestamps from unparsable dates are not modelled, because times are integers.
- Text encoding: case mapping (`toLowerCase`, `toUpperCase`) is modelled for ASCII letters only. String lengths count characters, not UTF-16 code units.
- Rendering: JSX layout and CSS classes are left out, except the enable, label and colour rules in the table above. The ribbon's palette classes are abstracted to a `Hue` per palette entry, and its loading spinner is left out.
- `LeadStatusRibbon.Ribbon.FinishStatusClick`: the body of a failed `PUT` response is left out. Only success or failure is modelled.
- `MessageService.getMessages` and the routes that only forward to the database are left out, as are `src/types`, which hold data shapes only.
- The template picker's built-in sample catalogue is left out. The catalogue it filters is a parameter.
- `src/app/messages/page.tsx` is not part of this model. It passes `contactsPerPage` but never `totalPages` to ContactList (line 69). `totalPages` is then undefined there, so the pagination controls never render on that page. `ContactList` is modelled for a numeric `totalPages`, as it declares.
- JavaScript object keys that look like array indices are enumerated first by `Object.entries`. Day keys are assumed never to be such strings, so the groups follow the insertion order of their days.
- `ParameterMapping.UpdateMapping`: requires the index to be in range. The component only calls it with the index of a rendered row; an out-of-range index would grow the JavaScript array with holes.
- `SendMessage.Send`: a 2xx webhook answer whose body is not JSON makes `json()` throw into the same handler as an unreachable webhook. The caller passes that case as `Unreachable`.
- `CampaignCreation.CreateCampaign`: the same holds for the campaign route (line 339 throws into the handler at line 352). That case is passed as `Unreachable` too.
- `ParameterMapping.Keys`: `Object.keys` lists integer-like keys (such as `"2"`) first, in ascending order, and the other keys after them in insertion order. The model lists the keys in the order the record gives them, so custom fields are assumed to have no integer-like keys. `ParameterMapping.AvailableFields` inherits this order.
- The prompt picker's disabled flag (`src/components/campaigns/PromptSelect.tsx` line 73), set when `disabled` is given or the prompts are loading, is not modelled. It is a plain disjunction of two inputs, and no other part of the model depends on it.
- `UserSchema.GetUserSchemaCookie`: its `ensures` only says that a found schema comes from a cookie entry with the schema name. The exact value is stated by `UserSchema.CookieRoundTrip` and `UserSchema.SchemaEntryValue`.
- `UserSchema.GetUserSchema`: the retry count is any integer. The per-attempt outcomes (query error, no row, row without a schema, schema found, exception) are a parameter function of the attempt number.
- `MessageView.GroupHeadings`: the heading's Today/Yesterday test compares abstract day keys. The `Date` parsing of `created_date`, which has no `Z` in this component, is inside the day-key function.
