# AudiaGenix server core in Dafny

AudiaGenix is a demo voice assistant for customer support. Its server keeps
conversations, speech sessions and customers in an in-memory store. It classifies
the sentiment of what a customer said by keyword lists. It answers a small JSON API:
list, fetch, create and patch conversations, process a transcribed utterance,
process uploaded audio through a transcription provider, list customers, and
report simulated analytics. This project models that server core and proves what
it promises.

- `common.dfy`: `Option` and `Result`.
- `js.dfy`: the JavaScript semantics the server relies on. It covers JSON values
  and `Date`, truthiness, object spread, and `Math.floor(Math.random() * n)` /
  `Math.round`. `Math.random()` results are parameters in [0, 1).
- `js_map.dfy`: a JavaScript `Map` with string keys. It keeps iteration in
  first-insertion order, and `set` on a known key keeps that key's place.
- `strings.dfy`: `toLowerCase` and `includes`.
- `schema.dfy`: the three table declarations as data, with their columns, NOT NULL
  flags and defaults. It derives the insert shapes with `omit` and models the
  shape check run on creation bodies (`parse`).
- `storage.dfy`: `MemStorage`, a class with three `Map` fields and the seed data.
  Its methods update the fields in place, with frame conditions.
- `assemblyai_service.dfy`: the scoring sentiment classifier. It also holds the
  mapping from the provider's transcript to the transcription result.
- `routes.dfy`: the route file's own keyword classifier, the canned replies, the
  sentiment timeline loop, and every handler except the token endpoint.

Identifiers (`randomUUID()`) and times (`new Date()`) are parameters of the
operations that use them. Nothing requires an identifier to be fresh. On a collision,
`Map.set` overwrites, and the contracts say what happens in both cases.

The route file imports `detectSentiment` from the service module and also declares
a local function with the same name. Handlers therefore take a `SentimentBinding`
that says which classifier the call reaches. The two classifiers are related by
lemmas, and the lemmas show that they differ.

The schema declares defaults (`status` "active", empty `messages`, `sentiment`
"neutral", `duration` 0). `createConversation` copies the validated fields verbatim
and fills none of them. `Routes.CreatedConversationLacksDefaults` states this.

## Model

| member | source | states |
|---|---|---|
| Js.Spread | server/storage.ts:137 | object spread `{...a, ...b}`: the keys of both; on shared keys the later object wins; other keys keep the earlier value |
| Js.Truthy | server/routes.ts:66 | JavaScript truthiness, as in `!transcription`: a value is falsy exactly when it is `null`, `false`, `0` or `""` |
| Js.TruthyProp | server/routes.ts:131 | `obj[key]` tested for truthiness, as in `!audioData` and `if (conversationId)` (routes.ts:80): a missing key is falsy; a present one is falsy exactly when its value is `null`, `false`, `0` or `""` |
| Js.FloorScaled | server/routes.ts:76 | `Math.floor(r * n)` for a draw r in [0, 1) is an index in [0, n) |
| Js.Round | server/routes.ts:147 | `Math.round(x)` is the integer within half of x, with halves rounded up |
| JsMap.Table.Get | server/storage.ts:119 | `map.get(key)` is present exactly for stored keys and gives the stored value |
| JsMap.Table.Set | server/storage.ts:129 | `map.set(key, v)`: key now maps to v; every other key is unchanged; a new key goes last in iteration order, a known key keeps its place |
| JsMap.Table.Values | server/storage.ts:115 | `Array.from(map.values())`: one value per key of the iteration order, the i-th being the value stored under the i-th inserted key |
| JsMap.Empty | server/storage.ts:27-29 | `new Map()` has no entries and iterates nothing |
| JsMap.ValuesAfterInsert | server/storage.ts:114-116 | after setting a new key, `values()` is the old values plus the new one at the end |
| JsMap.ValuesAfterReplace | server/storage.ts:138 | setting a known key changes only that key's position in `values()` |
| JsMap.ValuesAreEntries | server/storage.ts:114-116 | `values()` lists every stored value, and only stored values |
| JsMap.SizeIsLength | server/storage.ts:114-116 | `values()` has one element per key |
| Strings.Lower | server/assemblyai-service.ts:71 | `toLowerCase` keeps the length and lower-cases each character |
| Strings.Includes | server/assemblyai-service.ts:78 | `includes` is true exactly when the word occurs at some position |
| Strings.LowerIdempotent | server/assemblyai-service.ts:71 | lower-casing twice equals lower-casing once |
| Strings.LowerAppend | server/assemblyai-service.ts:71 | lower-casing distributes over concatenation |
| Strings.LowerOfLowercase | server/assemblyai-service.ts:74-76 | the all-lower-case word lists are unchanged by lower-casing |
| Strings.IncludesInContext | server/assemblyai-service.ts:78 | an occurrence survives adding text on either side |
| Schema.FieldsAreColumnFields | shared/schema.ts:6-14 | a field belongs to a table exactly when one of its columns declares it |
| Schema.KeysAreColumnKeys | shared/schema.ts:6-14 | a record key belongs to a shape exactly when one of its columns carries it |
| Schema.Omit | shared/schema.ts:38-50 | `.omit({...})`: the shape keeps no omitted field and has no more columns than the table (exact membership: `Schema.OmitColumns`) |
| Schema.OmitColumns | shared/schema.ts:38-41 | `omit` keeps exactly the columns of the fields it does not omit |
| Schema.OmitFields | shared/schema.ts:38-41 | the fields of an omitted shape are the table's fields minus the omitted ones |
| Schema.OmitKeepsDefaults | shared/schema.ts:38-50 | `omit` keeps the declared default of every field it keeps |
| Schema.Accepts | server/routes.ts:36 | the per-column value check: a jsonb column takes any JSON value, null included; another column takes null exactly when nullable, and otherwise a string (varchar, text), a number (integer) or a date (timestamp) |
| Schema.FieldOk | server/routes.ts:36 | one column of the shape is satisfied: an absent field is fine exactly when the column is nullable or has a default; a present one exactly when its value fits the column |
| Schema.Issues | server/routes.ts:40-41 | the reported violations are empty exactly when every field is fine; each names a failing column, and every failing column is named; `missing` is set when the key is absent |
| Schema.Parse | server/routes.ts:36 | parsing succeeds exactly when every field of the shape is fine; it then strips keys outside the shape and keeps the rest unchanged; otherwise it returns the non-empty violation list |
| Schema.ParseRoundTrip | server/routes.ts:36 | a valid body with no extra key parses to itself |
| Schema.ParseIdempotent | server/routes.ts:36 | parsing a parse result gives it back |
| Schema.ConversationInsertShape | shared/schema.ts:38-41 | the conversation insert shape is the conversation fields without `id` and `createdAt`; only `customerName` is required |
| Schema.SessionInsertShape | shared/schema.ts:43-46 | the session insert shape is the session fields without `id` and `createdAt`; nothing is required |
| Schema.CustomerInsertShape | shared/schema.ts:27-50 | the customer insert shape omits only `id`; customers have no `createdAt`; only `name` is required |
| Schema.ServerKeys | shared/schema.ts:7-13 | only the `id` and `createdAt` fields have those record keys |
| Schema.ParsedBodyHasNoServerFields | shared/schema.ts:38-41 | a parsed conversation body never carries `id` or `createdAt` |
| Schema.OnlyNameRequired | shared/schema.ts:8 | `customerName` is the only conversation column that is NOT NULL without a default |
| Schema.NameKey | shared/schema.ts:8 | only the customer-name field has the key `customerName` |
| Schema.NameOnlyIsValid | shared/schema.ts:8-13 | a body holding only a customer name is a valid conversation insert |
| Schema.NullMessagesAccepted | shared/schema.ts:11 | `messages` is NOT NULL, but as a jsonb column it accepts `null`: a name with `"messages": null` parses to itself |
| Schema.ConversationDefaults | shared/schema.ts:8-12 | status "active", messages [], sentiment "neutral", duration 0; no default for the customer name |
| Schema.SessionDefaults | shared/schema.ts:22-23 | confidence 0 and latency 0 |
| Schema.CustomerDefaults | shared/schema.ts:29-35 | tier "standard", sentimentHistory "positive", language "English", previousIssues []; no default for the name |
| Schema.LabelKeys | shared/schema.ts:9-11 | only the status and sentiment fields have those record keys |
| Schema.LabelColumnsAreText | shared/schema.ts:9-11 | status and sentiment are plain text columns |
| Schema.AnyStringForTextKey | shared/schema.ts:9-11 | replacing a text-only key's value by any string keeps a valid body valid |
| Schema.LabelsAreFreeText | shared/schema.ts:9-11 | any status and any sentiment string are accepted; the listed labels appear only in comments |
| Storage.Stamped | server/storage.ts:124-128 | the created record has the insert keys plus `id` and `createdAt`; those two win over input keys; other keys are kept |
| Storage.WithId | server/storage.ts:169 | a created customer has the insert keys plus `id`, and no timestamp |
| Storage.SessionsWith | server/storage.ts:142-146 | the filter keeps exactly the sessions whose `conversationId` is that string; it is empty exactly when none matches |
| Storage.SessionsWithAppend | server/storage.ts:143-145 | filtering distributes over concatenation, so it keeps the order |
| Storage.TwoInserts | server/storage.ts:59-111 | two sets under distinct keys into an empty map iterate in that order |
| Storage.SeedCustomers | server/storage.ts:37-60 | the seeded customers are customer-1 and customer-2, in that order |
| Storage.SeedConversations | server/storage.ts:63-111 | the seeded conversations are conv-1 and conv-2, in that order |
| Storage.MemStorage.constructor | server/storage.ts:26-33 | a new store holds the seed customers and conversations and no session |
| Storage.MemStorage.GetConversations | server/storage.ts:114-116 | every stored conversation, in insertion order, one per key |
| Storage.MemStorage.GetConversation | server/storage.ts:118-120 | the record under the id, or absent |
| Storage.MemStorage.CreateConversation | server/storage.ts:122-131 | stores and returns the stamped record under the id; nothing else changes; a new id appends to the iteration |
| Storage.MemStorage.UpdateConversation | server/storage.ts:133-140 | an unknown id returns absent and changes nothing; a known id stores the old record spread with the updates under the same key and same position |
| Storage.MemStorage.GetSessions | server/storage.ts:142-146 | the stored sessions of that conversation, in insertion order |
| Storage.MemStorage.CreateSession | server/storage.ts:148-157 | stores the stamped session under the id whether or not the conversation exists; nothing else changes |
| Storage.MemStorage.GetCustomers | server/storage.ts:159-161 | every stored customer, in insertion order |
| Storage.MemStorage.GetCustomer | server/storage.ts:163-165 | the customer under the id, or absent |
| Storage.MemStorage.CreateCustomer | server/storage.ts:167-172 | stores the customer with only an id added; nothing else changes |
| Storage.SessionsAfterCreate | server/storage.ts:142-156 | a new session under a fresh id is appended to its conversation's list; other lists are unchanged |
| Storage.UpdateMayRenameRecord | server/storage.ts:137-138 | an update carrying another `id` changes the record's `id` field but not the key it is stored under |
| AssemblyAiService.Score | server/assemblyai-service.ts:78-80 | a score is at most the list length, and positive exactly when a listed word occurs |
| AssemblyAiService.MentionsSome | server/routes.ts:224-226 | `words.some(word => lowerText.includes(word))`: true exactly when some listed word occurs in the text, and never for an empty list |
| AssemblyAiService.DetectSentiment | server/assemblyai-service.ts:70-87 | frustrated iff a frustration word occurs; else negative iff negative score > positive score; else positive iff a positive word occurs; else neutral |
| AssemblyAiService.ScoreCountsDistinctWords | server/assemblyai-service.ts:78-80 | a score counts distinct listed words present, not occurrences |
| AssemblyAiService.ScoreBounds | server/assemblyai-service.ts:74-80 | the lists hold no duplicates, so the scores are at most 11, 9 and 10 |
| AssemblyAiService.CaseInsensitive | server/assemblyai-service.ts:71 | a text and its lower-case form get the same label |
| AssemblyAiService.FrustrationDominates | server/assemblyai-service.ts:82 | adding text around a frustrated text keeps it frustrated, whatever the other words |
| AssemblyAiService.FrustrationWordAnywhere | server/assemblyai-service.ts:74-82 | any frustration word anywhere in a text makes it frustrated |
| AssemblyAiService.BrokenIsFrustrated | server/assemblyai-service.ts:74-82 | "it is broken" is frustrated |
| AssemblyAiService.TranscribeAudio | server/assemblyai-service.ts:34-51 | an error status or any failure gives the single error "Failed to transcribe audio"; otherwise missing text becomes "", missing confidence 0, and words are mapped one for one, in order |
| AssemblyAiService.ErrorTextIsDropped | server/assemblyai-service.ts:34-50 | the provider's own error text never reaches the caller |
| Routes.KeywordSentiment | server/routes.ts:218-231 | frustrated iff a frustration word occurs; else positive iff a positive word occurs; else neutral; never negative |
| Routes.Classify | server/routes.ts:218 | the `detectSentiment` a handler reaches: the imported scoring classifier (routes.ts:7) or the local keyword one; only the scoring one can answer negative, and each is frustrated exactly when its own frustration list is mentioned |
| Routes.MentionsSublist | server/routes.ts:219-220 | a mention of a word from a sublist is a mention from the longer list |
| Routes.KeywordListsArePrefixes | server/routes.ts:219-220 | the local lists are the first 7 and 6 words of the scoring lists |
| Routes.KeywordFrustrationAgrees | server/routes.ts:218-231 | when the local classifier says frustrated, so does the scoring one |
| Routes.ScoringNeutralIsKeywordNeutral | server/routes.ts:218-231 | when the scoring classifier says neutral, so does the local one |
| Routes.NotIncluded | server/routes.ts:224 | a word whose first letter the text lacks does not occur in it |
| Routes.ScoringCallsWorstFrustrated | server/assemblyai-service.ts:74-82 | the scoring classifier labels "worst" frustrated |
| Routes.KeywordCallsWorstNeutral | server/routes.ts:218-231 | the local classifier labels "worst" neutral, so the two bindings disagree |
| Routes.GenerateAIResponse | server/routes.ts:185-214 | the reply is one of the three canned entries |
| Routes.ReplyIgnoresTranscription | server/routes.ts:185-214 | the reply depends on the draw alone: any two transcriptions get the same reply for the same draw |
| Routes.EveryReplyReachable | server/routes.ts:214 | each canned entry is returned for some draw, whatever the transcription |
| Routes.TimelinePoint | server/routes.ts:239-242 | a timeline entry is labelled positive, neutral or negative, with a value in [0, 100) |
| Routes.GenerateSentimentTimeline | server/routes.ts:234-245 | exactly 7 entries, the i-th built from the i-th pair of draws, each labelled positive, neutral or negative |
| Routes.Simulate | server/routes.ts:71-77 | the reply is canned, the confidence is in [90, 99], and the latency is in [200, 399] |
| Routes.SpeechSession | server/routes.ts:81-87 | the session written holds exactly conversationId, transcription, aiResponse (the reply's content), confidence and latency, with the same confidence and latency figures the response reports |
| Routes.SpeechSessionIsListed | server/routes.ts:80-88 | a session written for a string conversation id is then listed for that conversation |
| Routes.ProcessAudio | server/routes.ts:127-156 | 400 without audio data; 500 when transcription fails; otherwise 200 with the text, the rounded percentage confidence, a canned reply, the text's sentiment and a latency in [200, 299] |
| Routes.AudioConfidenceIsPercentage | server/routes.ts:147 | a provider confidence in [0, 1] is reported as a percentage in [0, 100] |
| Routes.ProviderErrorIsServerError | server/routes.ts:139-155 | a transcript in the error state ends in 500 |
| Routes.GetConversations | server/routes.ts:11-18 | 200 with every stored conversation |
| Routes.GetConversation | server/routes.ts:21-31 | 404 with a message exactly when the id is unknown, otherwise 200 with the stored record |
| Routes.PostConversation | server/routes.ts:34-45 | an invalid body gets 400 with the violations and writes nothing; a valid one gets 201 with the stored, stamped record |
| Routes.PatchConversation | server/routes.ts:48-59 | the body reaches the store unchecked; an unknown id gets 404 and creates nothing; a known id gets 200 with the merged record |
| Routes.ProcessSpeech | server/routes.ts:62-99 | 400 and no write without a truthy transcription; exactly one session written iff conversationId is truthy; confidence in [90, 99] and latency in [200, 399]; 500 after the write when the transcription is not a string |
| Routes.GetCustomers | server/routes.ts:102-109 | 200 with every stored customer |
| Routes.Analytics | server/routes.ts:159-178 | response time in [250, 349], accuracy in [92, 99], escalation rate in [10, 19], and a timeline of 7 entries |
| Routes.PostThenGet | server/routes.ts:21-45 | a conversation created by POST is what a following GET of its id returns |
| Routes.CreatedConversationLacksDefaults | server/storage.ts:122-131 | a body with only a name is stored with just the name, id and createdAt, although the schema declares a status default |

## Left out

- The token endpoint (`POST /api/assemblyai-token`): it returns an environment variable and a fixed URL, with no logic.
- The provider client: `files.upload`, `transcripts.transcribe` and `createRealtimeTranscription` are network calls. Their result is the `ProviderOutcome` parameter of `TranscribeAudio` and `ProcessAudio`.
- `Buffer.from(audioData, 'base64')` is left out: the decoded buffer only feeds the provider. A truthy `audioData` that `Buffer.from` rejects (a number, say) ends in 500 in the code. In the model that case is the `ProviderFailed` outcome.
- Express wiring, `async`/`await`, the `setTimeout` delay, logging and the exported `storage` singleton are left out. Each handler is a sequential procedure over a given store.
- The `catch` branches that answer 500 in the list, fetch, create, patch, customer and analytics handlers are left out: the in-memory store never throws. The two 500 paths that can occur are modelled: a non-string transcription in process-speech, and a failed transcription in process-audio.
- Request bodies are JSON objects (`Js.Record`). Bodies that are not objects are not modelled.
- Zod internals are left out. The shape check is modelled as: required fields present; present fields of the column's JSON kind; null only where the column is nullable or is a jsonb column (a jsonb column takes any JSON value); unknown keys stripped. Zod's exact error texts and its order of checks are not modelled.
- The analytics `satisfaction` field (`toFixed(1)` of a float) is left out. Its draw is still consumed, in its place.
- Database concerns are left out: the foreign key from sessions to conversations and the SQL column names.
- Strings.Lower: only ASCII letters are lower-cased; `toLowerCase` on other Unicode letters is not modelled.
- Routes.Simulate: the latency bound [200, 399] holds for real-number arithmetic. In IEEE doubles, on an engine whose `Math.random` can return 1 - 2^-53, `r * 200 + 200` rounds to 400, so the code can report 400 there.
- Routes.ProcessAudio: `Math.round(confidence * 100)` is computed on exact reals, not doubles.
- Routes.TimelinePoint: the timeline `value` is the exact real `draw * 100`, not a double.
- Storage.MemStorage.constructor: one `now` stands for every clock read of the constructor: both seeded conversations' `createdAt` and the base of both customers' `lastContact` (storage.ts:42, 53, 84, 107) are computed from it, and the seeded messages carry one ISO-8601 time string, given as a parameter. The code calls `new Date()` separately for each of these.
