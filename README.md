# JurisFlow data core in Dafny

JurisFlow is a browser application for a law office. Prospective clients
submit a request ("pedido"), lawyers move it through a status workflow,
attach documents, and log what was sent to whom. All of its data lives in
`localStorage`, behind one module, `JurisFlowDB`. This project models that
store, plus the parts of the application that decide what data is valid
and what it means:

- `database.js`: the JurisFlowDB store. It has six JSON-array slots: cases,
  clients, users, documents, send log and timeline. All its operations are
  modelled:
  - registering clients, with an upsert by email;
  - adding and updating cases;
  - the timeline, both as a flat list and as the copy embedded in each case;
  - documents and the send log;
  - case filtering and the statistics;
  - migration from the old slot, export, import and clear.
- `utils.js`: the CPF, phone and email validators.
- `status-config.js`: the status workflow table, the table of law areas, and
  their lookups.
- `init.js`: the seed data written when the store is empty.

## How the model reads the source

- **JSON values.** JSON is modelled as a datatype `Json.Value`, and a stored
  object is a map from strings to values (`Json.Record`).
  - Every read in the source parses a fresh copy from storage. So two
    arrays or objects are never `===`, and only primitives compare equal.
    `Json.StrictEq` captures this.
  - Object spread, `{...a, ...b}`, is a map union with `b` winning
    (`Json.Spread`).
  - A missing field is `None`.
- **Exceptions.** A JavaScript exception is a `Throw` outcome carrying the
  error kind. The model has two:
  - `TypeError`, for calling `.push`/`.unshift`/`.toLowerCase` on a value
    that lacks the method;
  - `VersionError`, for the `throw` in `importData`.

  A `Throw` leaves the store as the writes before it left it, exactly as
  `localStorage` does.
- **The store.**
  - `StoreModel.Db` holds the six slots, the old-cases slot that
    `migrateFromOld` reads, and the set of slots that hold a value at all.
    `init` writes `[]` only to absent slots.
  - Each operation is a function from a `Db` to a new `Db` and a result.
  - The class `Database.JurisFlowDB` keeps the slots as `seq` fields. Its
    methods update them in place, and each method's `ensures` ties the new
    state and the result to the model function.
  - Loops in the source stay loops: `init` and `clearAllData` iterate over
    the key list, and `getStatistics` iterates over the cases.
- **The clock.** `Date.now()` and `new Date()` are a parameter `now`, one
  reading per call.
  - An id is the prefix followed by `now` in upper-case base 36
    (`Ids.NewId`).
  - A `created_at` is `Num(now)`, so ordering by date is ordering by that
    number.
- **The seed.** `initSampleData` is a method on the store. Its five clock
  readings (the client, two cases, two documents) are the fields of
  `Seed.Clock`.
- **Validators.**
  - `isValidCPF` keeps its two `for` loops, as a method proved against the
    rule `CpfRule`.
  - The email regular expression is represented by the listed conditions it
    checks, and proved equivalent to them.

## Model

| member | source | states |
|---|---|---|
| Json.Get | database.js:34 | a field read yields a value exactly when the key is present, and that value is the stored one |
| Json.Spread | database.js:107 | `{...base, ...over}` has both key sets; `over` wins on shared keys, and the other keys keep their base values |
| Json.Filter | database.js:209-211 | `Array.filter`: the result keeps exactly the elements that pass, each as often as it occurs in the input, and gains nothing |
| Json.FilterSnoc | database.js:210 | filtering a list with one more element at the end gives the earlier result, in order, followed by that element when it passes |
| Json.FilterLength | database.js:335-336 | the length of a filtered list is the number of positions whose element passes |
| Json.FindIndex | database.js:104 | `findIndex` with `===`: -1 exactly when no element matches; otherwise the element matches and none before it does |
| Json.Find | database.js:34 | `find` with `===`: none exactly when no element matches; otherwise it is the element at `findIndex` |
| Ids.Base36 | database.js:44 | `toString(36)` has at least one digit, and two or more exactly from 36 on |
| Ids.NewId | database.js:72 | an id is its prefix followed by at least one upper-case base-36 digit |
| Ids.Base36Injective | database.js:44 | distinct clock readings give distinct base-36 strings |
| Ids.NewIdInjective | database.js:72 | two ids with the same prefix are equal exactly when they come from the same millisecond |
| Ordering.CreatedAt | database.js:166 | the creation time the sort compares: the stored number, and 0 for a record without one (see "Left out") |
| Ordering.Insert | database.js:166 | inserting into a newest-first list keeps it newest first and adds exactly that record |
| Ordering.SortNewestFirst | database.js:166 | the sort by `created_at` descending gives a newest-first permutation of its input |
| Ordering.SortedMembers | database.js:311 | sorting neither adds nor drops an element |
| StoreModel.Put | database.js:39 | `setItem` marks the slot as present and keeps the store consistent |
| StoreModel.Init | database.js:18-29 | `init` makes all six slots present and changes no stored value |
| StoreModel.WithItem | database.js:153-156 | the "create the list if missing, then push/unshift" step throws exactly on a truthy non-array field; otherwise it adds the item at the right end and keeps every other field |
| StoreModel.EmbedInCase | database.js:185-193 | the case-side write of an add: an unknown case changes nothing; otherwise only the matching case changes, and only by gaining fields |
| StoreModel.NewClient | database.js:43-48 | a new client has the caller's fields, a generated `CLI-` id unless the caller gave one, and a fresh `created_at` and `casos: []` that override the caller |
| StoreModel.RegisterClient | database.js:32-53 | with a matching email, the first such client is merged in place; without one, a new client is appended; only the clients slot changes |
| StoreModel.ClientById | database.js:59-61 | finds a client with that id exactly when one exists, and it is the first client with that id |
| StoreModel.ClientByEmail | database.js:63-65 | finds a client with that email exactly when one exists, and it is the first client with that email |
| StoreModel.TimelineEntry | database.js:139-144 | an entry has the caller's fields, defaulting to the case id and `now` |
| StoreModel.AddToTimeline | database.js:136-161 | the entry is appended to the flat timeline; only the matching case changes, by gaining fields; a throw can only be a `TypeError` |
| StoreModel.CaseTimelineEntry | database.js:123-127 | the embedded-only entry has the caller's fields plus `id` and `created_at`, and no `case_id` |
| StoreModel.UpdateCaseTimeline | database.js:114-134 | it never touches the flat timeline; an unknown case gives `null` and no change; a success returns the new entry |
| StoreModel.TimelineByCaseId | database.js:163-167 | newest first, and a permutation of the flat entries whose `case_id` is strictly equal to the id |
| StoreModel.CaseDefaults | database.js:71-77 | the defaults of a new case: a `SOL-` id, status `recebido`, the clock reading and three empty lists (no contract of its own; `NewCase` states how they combine) |
| StoreModel.NewCase | database.js:71-79 | the defaults (`SOL-` id, status `recebido`, empty lists) apply only where the caller gave no value; the caller's fields win |
| StoreModel.AddCase | database.js:68-92 | exactly one case is appended; exactly one "Pedido recebido" entry is appended to the flat timeline; a successful call returns the new case; only the cases and timeline slots change |
| StoreModel.CaseById | database.js:98-100 | finds a case with that id exactly when one exists, and it is the first case with that id |
| StoreModel.UpdateCase | database.js:102-112 | returns `null` and changes nothing exactly when no case has the id; otherwise it merges the updates into the first match |
| StoreModel.NewDocument | database.js:173-179 | a document has the caller's fields over the defaults: case id and status `pendente` |
| StoreModel.DocumentEntry | database.js:196-200 | the fields of the 'documento' timeline entry (no contract of its own; `StoreLemmas.AddDocumentToCase` states where it goes) |
| StoreModel.AddDocument | database.js:170-203 | the document is appended to the flat list; on success, a 'documento' entry is appended to the flat timeline; clients, users and sends are untouched |
| StoreModel.DocumentsByCaseId | database.js:209-211 | exactly the stored documents whose `case_id` is strictly equal to the id, each as often as it is stored |
| StoreModel.FindEmbeddedIndex | database.js:226 | the embedded `findIndex(d => d.id === id)`: it throws on a `null` before any match; otherwise it gives the first match or -1 |
| StoreModel.UpdateDocument | database.js:213-236 | `null` and no change exactly when the document is unknown; otherwise the merged record is stored and returned, and only cases and documents change |
| StoreModel.NewSendLog | database.js:242-247 | a log has the caller's fields over status `enviado` |
| StoreModel.EnvioEntry | database.js:265-270 | the fields of the 'envio' timeline entry (no contract of its own; `StoreLemmas.LogSendToCase` states where it goes) |
| StoreModel.LogSend | database.js:239-274 | the log is appended; without a truthy `caseId`, nothing else changes; with one, an 'envio' entry is recorded |
| StoreModel.SendLogsByCaseId | database.js:280-282 | exactly the stored logs whose `caseId` is strictly equal to the id, each as often as it is stored |
| StoreModel.MigrateFromOld | database.js:341-355 | returns the number of old cases; a nonzero count puts them before the current cases and removes the old slot; zero changes nothing |
| StoreModel.ExportData | database.js:358-368 | the snapshot carries version "1.0" and the five stored collections; users are not exported |
| StoreModel.ImportData | database.js:370-382 | a wrong version throws and changes nothing; otherwise it returns true and writes only the collections the snapshot carries |
| StoreModel.PutIf | database.js:375 | a slot write guarded by the snapshot field keeps the store consistent |
| StoreModel.ImportAsWrites | database.js:375-379 | a successful import is the five guarded writes, in source order |
| StoreModel.KeyOrderCovers | database.js:5-12 | the key list visits exactly the six store slots |
| StoreModel.ClearedUpTo | database.js:386-388 | every prefix of the clearing loop keeps the store consistent and the old slot |
| StoreModel.ClearAsWrites | database.js:385-390 | clearing all six keys in order gives the cleared store |
| StoreModel.ClearAllData | database.js:385-390 | all six slots are `[]`; the old-cases slot is kept |
| Database.JurisFlowDB.Load | database.js:393 | the store is built from storage and then `init` runs |
| Database.JurisFlowDB.SetItem | database.js:23 | one slot write, as `StoreModel.Put` |
| Database.JurisFlowDB.Init | database.js:18-29 | the loop over the required keys leaves the state `StoreModel.Init` describes, and returns true |
| Database.JurisFlowDB.RegisterClient | database.js:32-53 | new state and result are those of `StoreModel.RegisterClient` |
| Database.JurisFlowDB.AddToTimeline | database.js:136-161 | new state and result are those of `StoreModel.AddToTimeline` |
| Database.JurisFlowDB.AddCase | database.js:68-92 | new state and result are those of `StoreModel.AddCase` |
| Database.JurisFlowDB.UpdateCase | database.js:102-112 | new state and result are those of `StoreModel.UpdateCase` |
| Database.JurisFlowDB.UpdateCaseTimeline | database.js:114-134 | new state and result are those of `StoreModel.UpdateCaseTimeline` |
| Database.JurisFlowDB.AddDocument | database.js:170-203 | new state and result are those of `StoreModel.AddDocument` |
| Database.JurisFlowDB.UpdateDocument | database.js:213-236 | new state and result are those of `StoreModel.UpdateDocument` |
| Database.JurisFlowDB.LogSend | database.js:239-274 | new state and result are those of `StoreModel.LogSend` |
| Database.JurisFlowDB.GetStatistics | database.js:316-338 | the counting loop returns `Statistics.StatisticsAsWritten` of the current state, which is `Statistics.StatisticsOf` when no status or area names an inherited member; it changes nothing |
| Database.JurisFlowDB.MigrateFromOld | database.js:341-355 | new state and result are those of `StoreModel.MigrateFromOld` |
| Database.JurisFlowDB.WriteIf | database.js:375-379 | one guarded import write, as `StoreModel.PutIf` |
| Database.JurisFlowDB.ImportData | database.js:370-382 | new state and result are those of `StoreModel.ImportData` |
| Database.JurisFlowDB.ClearAllData | database.js:385-390 | the loop over the keys leaves the cleared store and returns true |
| StoreLemmas.FindIndexUnique | database.js:104 | the first matching index is what `findIndex` returns |
| StoreLemmas.FindIndexAfterUpdate | database.js:151 | an update that keeps the id keeps the index at which the case is found |
| StoreLemmas.FindIndexAppend | database.js:151 | appending keeps an earlier match as the one found |
| StoreLemmas.RegisterExistingEmail | database.js:33-40 | a known email: the first client with it, at or before any given match, gets the union of its fields and the caller's, with the caller's values; no other client changes and the count stays |
| StoreLemmas.RegisterNewEmail | database.js:43-52 | an unknown email: exactly one client is appended, with the caller's fields and a fresh `created_at` and `casos` |
| StoreLemmas.AddToTimelineEmbeds | database.js:136-161 | for a known case, the entry goes in front of that case's timeline and at the end of the flat one |
| StoreLemmas.AddToTimelineNoCase | database.js:136-161 | for an unknown case, only the flat timeline grows |
| StoreLemmas.AddToTimelineCaseId | database.js:139-146 | the appended flat entry carries the case id |
| StoreLemmas.UpdateCaseTimelinePrepends | database.js:114-134 | for a known case, the entry goes in front of its embedded timeline and nothing else changes |
| StoreLemmas.TimelineByCaseIdMembers | database.js:163-167 | an entry is listed exactly when it is a stored entry for that case |
| StoreLemmas.AddCaseFresh | database.js:68-92 | with a fresh id, the stored case is the new case with its "Pedido recebido" entry in front of its timeline |
| StoreLemmas.AddCaseFirstEntry | database.js:76-89 | a case without a caller timeline is stored with just its first entry, after the unchanged earlier cases |
| StoreLemmas.AddCaseIdCollision | database.js:81-89 | when an earlier case has the new id, the new case is stored without the entry; only the earlier case may change |
| StoreLemmas.AddCaseNoClash | database.js:68-92 | without an id clash, one case and one entry are appended and the other slots are untouched |
| StoreLemmas.AddTwoCases | database.js:68-92 | two adds in distinct milliseconds to an empty case list store both cases, each with its own entry |
| StoreLemmas.FirstCaseStored | database.js:68-92 | after the first add, the stored case's id differs from the id a later millisecond gives |
| StoreLemmas.AddCaseSameId | database.js:72 | an add in the millisecond of the only stored case puts its entry into that case and stores the new case unchanged |
| StoreLemmas.AddTwoCasesSameMillisecond | database.js:72 | two adds in one millisecond share an id; both entries land in the first case, and the second case keeps an empty timeline |
| StoreLemmas.UpdateCaseMerges | database.js:102-112 | a known id: the first match becomes `{...old, ...updates}` and no other case, client, document or entry changes |
| StoreLemmas.EmbedThenRecord | database.js:185-200 | pushing onto a list field of a known case and then `addToTimeline` updates that case once with both |
| StoreLemmas.AddDocumentToCase | database.js:170-203 | a known case: the document is appended to the flat list and to the case's `documentos`, and a 'documento' entry goes in front of its timeline and at the end of the flat one |
| StoreLemmas.AddDocumentToFirst | database.js:170-203 | the same, for the first stored case |
| StoreLemmas.AddTwoDocuments | database.js:170-203 | two documents on one case: list order for the documents, newest-first order in the case timeline |
| StoreLemmas.AddDocumentNoCase | database.js:170-203 | an unknown case: the document and the entry are still stored, and the cases are unchanged |
| StoreLemmas.AddDocumentStatus | database.js:177-178 | a new document is `pendente` unless the caller sets a status |
| StoreLemmas.AddDocumentListed | database.js:170-211 | after `addDocument`, `getDocumentsByCaseId` gives the earlier list, in order, then the new document if its `case_id` matches, even when the case-side write throws |
| StoreLemmas.UpdateDocumentSyncsEmbedded | database.js:217-233 | when the owning case holds a copy of the document, that copy becomes the merged record and no other case changes |
| StoreLemmas.LogSendToCase | database.js:239-274 | a known case: the log is appended to the flat list and to the case's `envios`, and an 'envio' entry is recorded |
| StoreLemmas.LogSendListed | database.js:239-282 | after `logSend`, `getSendLogsByCaseId` gives the earlier list, in order, then the new log if its `caseId` matches |
| StoreLemmas.MigrateIdempotent | database.js:341-355 | a second migration finds nothing and changes nothing |
| StoreLemmas.ImportExportIdentity | database.js:358-382 | importing a fresh export restores every collection |
| StoreLemmas.ExportClearImport | database.js:358-390 | export, clear and import bring back the five exported collections and lose the users |
| StoreLemmas.ImportFieldwise | database.js:375-379 | each collection comes from the snapshot when the snapshot has it, and keeps its stored value otherwise |
| Statistics.KeysOf | database.js:325-326 | one property key per case: the field value converted to a string |
| Statistics.Bump | database.js:325 | the intended `counts[k] = (counts[k] \|\| 0) + 1`, on own properties only: it adds a key at most once |
| Statistics.BumpTotal | database.js:325 | one bump adds one to the sum of the counts |
| Statistics.BumpCount | database.js:325 | one bump adds one to the bumped key and nothing to any other |
| Statistics.BumpKeySet | database.js:325 | the keys after a bump are the old keys plus the bumped one |
| Statistics.BumpDistinct | database.js:325 | a bump keeps the keys distinct |
| Statistics.Tally | database.js:324-327 | the intended count object has at most one key per case |
| Statistics.TallyTotal | database.js:324-327 | the intended counts sum to the number of cases |
| Statistics.TallyCount | database.js:324-327 | each key's intended count is its number of occurrences |
| Statistics.TallyKeys | database.js:324-327 | the intended count object's keys are distinct and are exactly the values that occur |
| Statistics.StatisticsOf | database.js:316-338 | the intended result: the three totals are the collection lengths; `casosUrgentes` is the number of cases with a truthy `urgente`, and `casosPendentes` the number with status `recebido` or `pendente` |
| Statistics.StatisticsConsistent | database.js:316-338 | in the intended result, status and area counts each sum to `totalCasos`, with distinct keys; urgent and pending counts are at most the total |
| Statistics.StatusCountIsOccurrences | database.js:325 | in the intended result, the count for a status is the number of cases with that status |
| Statistics.BumpAsWritten | database.js:325 | the update on an object created as `{}`: a `__proto__` key changes nothing, and at most one key is added |
| Statistics.TallyAsWritten | database.js:324-327 | the count object as written has at most one key per case |
| Statistics.StatisticsAsWritten | database.js:316-338 | as written: totals, `casosUrgentes` and `casosPendentes` are those of the intended result; the count objects are built by `BumpAsWritten` |
| Statistics.BumpAgrees | database.js:325 | on a key that is not an inherited member, the written update is the intended one |
| Statistics.TallyAgrees | database.js:324-327 | with no inherited member among the keys, the written count object is the intended one |
| Statistics.StatisticsAgree | database.js:316-338 | when no status or area names an inherited member, the source's result is the intended one, so the lemmas above hold of it |
| Statistics.InheritedStatusCountsAsText | database.js:325 | two cases with status `'toString'` give the count "function toString() { [native code] }11", where 2 was meant |
| Statistics.ProtoStatusUncounted | database.js:325 | a case with status `'__proto__'` is counted under no key, though `totalCasos` is 1 |
| CaseFilters.Lower | database.js:293 | `toLowerCase` keeps the length and lowers each character |
| CaseFilters.LowerIncludes | database.js:295-298 | it throws exactly on a missing or non-string field; otherwise it is case-insensitive containment |
| CaseFilters.SearchMatch | database.js:294-299 | the search predicate never throws when `nome`, `email` and `id` are strings and `pedido` is a string or falsy; for a non-empty term it accepts exactly when one of the four fields, lower-cased, contains the term |
| CaseFilters.SearchFilter | database.js:294-299 | the search throws exactly when some case throws; otherwise it keeps the cases the search predicate accepts |
| CaseFilters.FilterCases | database.js:285-314 | a result that does not throw is newest first and no longer than the stored cases (`FilterCasesExact` gives the exact contents) |
| CaseFilters.FilterCasesExact | database.js:285-314 | the result is newest first and a permutation of the cases that every active filter accepts |
| CaseFilters.FilterCasesMembers | database.js:285-314 | a case is returned exactly when it is stored and passes every active filter |
| CaseFilters.FilterCasesThrows | database.js:292-300 | the call throws exactly when the search is active and either the term is not a string or a remaining case throws in the search predicate |
| CaseFilters.FilterCasesNoFilters | database.js:285-314 | with no filter, all cases come back, newest first |
| CaseFilters.FilterCasesTodas | database.js:302-304 | area `'todas'` filters nothing |
| StatusConfig.TableKeys | status-config.js:3-53 | the table `StatusConfig.Table` has exactly the listed statuses, none of them an inherited object member |
| StatusConfig.NextStatusClosed | status-config.js:3-53 | every next status is itself in the table |
| StatusConfig.TransitionShape | status-config.js:3-53 | `arquivado` has no successor; no status leads to itself or back to `recebido`; each has at most two successors |
| StatusConfig.WalkToArchived | status-config.js:3-53 | from every status, a path along `nextStatus` reaches `arquivado` |
| StatusConfig.ArchivedReachableFromEvery | status-config.js:3-53 | `arquivado` is reachable from every status |
| StatusConfig.OnlyArchivedTerminal | status-config.js:3-53 | a status has no successor exactly when it is `arquivado` |
| StatusConfig.GetStatusConfig | status-config.js:71-78 | the table entry for a listed status, and the "Desconhecido" fallback for any other |
| StatusConfig.RawStatusLookup | status-config.js:72 | `STATUS_CONFIG[s]` is an own entry exactly for the listed statuses, and an inherited one exactly for the object members |
| StatusConfig.GetStatusConfigAsWritten | status-config.js:71-78 | as written: the fallback for every non-member, and no configuration at all for an inherited member |
| StatusConfig.GetStatusConfigInherited | status-config.js:71-78 | `getStatusConfig('toString')` yields no configuration, where the fallback was meant |
| StatusConfig.NextStatusOptions | status-config.js:100-108 | `[]` for an unlisted status; otherwise one option per next status, carrying its value and label |
| StatusConfig.NextStatusOptionsShape | status-config.js:100-108 | no option offers the current status or `recebido` |
| StatusConfig.NextStatusOptionsAsWritten | status-config.js:100-108 | as written: it throws a `TypeError` for an inherited member, and agrees with `NextStatusOptions` elsewhere |
| StatusConfig.NextStatusOptionsInherited | status-config.js:100-108 | `getNextStatusOptions('toString')` throws, where `[]` was meant |
| StatusConfig.FindArea | status-config.js:91 | `find` by id: none exactly when no area has the id; otherwise the first area with it |
| StatusConfig.AreaIdsDistinct | status-config.js:56-68 | the list `StatusConfig.Areas` has eleven areas, with pairwise distinct ids |
| StatusConfig.AreaIcon | status-config.js:90-93 | a listed area's icon, or the folder icon exactly for an unlisted id |
| StatusConfig.AreaName | status-config.js:95-98 | a listed area's name, or "Outros" exactly for an unlisted id |
| StatusConfig.AreaLookupListed | status-config.js:90-98 | a listed id gives that area's name and icon |
| StatusConfig.AreaLookupUnlisted | status-config.js:90-98 | an unlisted id gives "Outros" and the folder icon |
| StatusConfig.AreaTodasUnlisted | status-config.js:90-98 | the `todas` filter value is not an area and reads as "Outros" |
| Validators.Strip | utils.js:50 | only digits remain, and the result is no longer than the input |
| Validators.StripKeepsDigits | utils.js:50 | every digit keeps its count; every other character is gone |
| Validators.StripIdempotent | utils.js:50 | stripping twice is stripping once |
| Validators.StripSeparator | utils.js:81 | separators may be inserted anywhere without changing the digits |
| Validators.CheckDigitRange | utils.js:63-64 | the remainder is never 11; the check digit is always between 0 and 9 |
| Validators.CheckDigitIsPublished | utils.js:63-64 | the computed digit is the published CPF rule: 0 when the remainder of `sum` by 11 is below 2, and otherwise 11 minus that remainder |
| Validators.CpfRule | utils.js:49-77 | the rule `isValidCPF` decides, as a definition: eleven digits after stripping, not all equal, both check digits right (its properties are the lemmas below) |
| Validators.IsValidCpf | utils.js:49-77 | the two weighted-sum loops decide exactly `CpfRule`: eleven digits, not all equal, both check digits right |
| Validators.CpfRejectsShape | utils.js:52-54 | a wrong length or a single repeated digit is rejected |
| Validators.CpfMaskIrrelevant | utils.js:50 | the `xxx.xxx.xxx-xx` mask changes neither the digits nor the verdict |
| Validators.CpfRuleOnDigits | utils.js:52-76 | on eleven digits, the rule is "not all equal, and both check digits hold" |
| Validators.CpfRuleOfMasked | utils.js:49-77 | a masked CPF is judged by its digits |
| Validators.CpfAllOnesInvalid | utils.js:52 | `111.111.111-11` is rejected |
| Validators.CpfValidExample | utils.js:49-77 | `529.982.247-25` is accepted |
| Validators.SampleCpfInvalid | init.js:27 | the seed client's CPF `123.456.789-00` fails the second check digit |
| Validators.SampleCpfCorrected | utils.js:67-76 | `123.456.789-09` is accepted |
| Validators.IsValidPhone | utils.js:80-83 | valid exactly when 10 or 11 digits remain |
| Validators.PhoneSeparatorIrrelevant | utils.js:81 | separators do not change the verdict |
| Validators.PhoneEleven | utils.js:80-83 | an 11-digit mobile number is accepted |
| Validators.PhoneNine | utils.js:80-83 | a 9-digit number is rejected |
| Validators.EmailPattern | utils.js:44 | the regular expression as a definition: a non-empty run before one `@`, then text, a dot and text, with no whitespace and no other `@` anywhere |
| Validators.IsValidEmail | utils.js:43-46 | accepted exactly when the email matches the pattern: a non-empty local part, one `@`, and a domain with a dot that has text on both sides, with no whitespace and no other `@` |
| Validators.EmailEquivalence | utils.js:44 | the pattern is equivalent to the explicit conditions: no whitespace, one `@`, a non-empty part before it, and a dot after it with text on both sides |
| Validators.EmailAccepted | utils.js:43-46 | `ana@x.br` is accepted |
| Validators.EmailRejected | utils.js:43-46 | whitespace, a missing dot or an empty local part is rejected |
| Seed.SeedSpec | init.js:14-70 | the seeding as a definition: an unchanged store unless it has no case and no client, otherwise the client, then the two cases and two documents (its properties are the lemmas below) |
| Seed.InitSampleData | init.js:14-70 | the seeding leaves exactly the state `SeedSpec` describes |
| Seed.AddSampleCases | init.js:32-54 | the two case adds, as the model's two `AddCase` steps |
| Seed.AddSampleDocuments | init.js:57-68 | the two document adds on the first stored case |
| Seed.SeedGuard | init.js:15-19 | a store with any case or client is left unchanged |
| Seed.SeedClientStep | init.js:23-29 | on an empty store, the client is registered as new and gets a `CLI-` id |
| Seed.SeedCasesDistinct | init.js:32-54 | in distinct milliseconds, both cases are stored, each with its own entry |
| Seed.SeedDocumentsOnFirst | init.js:57-68 | both documents are attached to the first case and recorded in both timelines |
| Seed.SeedFromEmpty | init.js:14-70 | from an empty store: one client, two cases, two documents and four entries, with the exact records |
| Seed.SeedCountsSameMillisecond | init.js:14-70 | from an empty store, with both cases added in one millisecond: still one client, two cases, two documents and four timeline entries |
| Seed.SeedCounts | init.js:14-70 | from an empty store, for every clock: one client, two cases, two documents and four timeline entries |
| Seed.SeedEntries | init.js:32-68 | each seeded entry has its title and belongs to its case |
| Seed.SeedClientLinks | init.js:23-54 | both cases point at the seeded client |
| Seed.SeedDocumentsApproved | init.js:58-68 | both documents belong to the first case and are `aprovado` |
| Seed.SeedEmbeddedTimeline | init.js:32-68 | with a forward clock, the first case's timeline is its three entries, newest first |
| Seed.SeedSameMillisecond | init.js:32-54 | when both cases are added in one millisecond, they share an id and the second case has an empty timeline |

## Left out

- `localStorage` and `JSON.parse`/`JSON.stringify` are left out. A slot is
  an in-memory sequence of parsed records, and reading a slot reads that
  field.
  - `getClients`, `getCases`, `getDocuments` and `getSendLogs` (database.js
    55-57, 94-96, 205-207 and 276-278) are therefore the fields of
    `StoreModel.Db` themselves.
  - A slot holding a non-array JSON value, or text that does not parse, is
    not modelled.
  - A slot element that is not an object is not modelled: every element is
    a `Json.Record`. In the source, an imported `cases: [null]` makes
    `filterCases` and `getStatistics` throw a `TypeError` when they read a
    field of `null` (database.js:289, 295, 311 and 325). The model cannot express that
    input.
  - Storage quota errors are not modelled.
- The clock is left out: it is a parameter, one reading per call. In the
  source, `Date.now()` and `new Date()` inside one call can straddle a
  millisecond.
  - Timestamps are integers, not ISO strings.
  - Sorting by `new Date(created_at)` is sorting by that integer.
- Ordering.CreatedAt: a record with no numeric `created_at` sorts as time 0.
  In the source, `new Date(undefined)` is an invalid date, the comparator
  returns `NaN`, and the position of such a record is left to the engine.
  Every record the store creates has a `created_at`, so this concerns only
  imported or hand-written data.
- Ties in the newest-first sorts are not pinned down. The model proves the
  order and the permutation, but not the stable order of equal timestamps.
- JavaScript numbers are unbounded integers. Floating point is not modelled.
- Values set to `undefined` are not modelled. A field is either present
  with a JSON value or absent.
- CaseFilters.Lower: `toLowerCase` lowers ASCII letters only. Accented
  capitals such as É, Ã and Ç stay upper case. In this Portuguese-language
  application that matters: in the source, `filterCases({search: 'josé'})`
  finds a client named "JOSÉ", and in the model it does not.
- Statistics: `statusCounts` and `areaCounts` are lists of key/count
  pairs in first-occurrence order. Integer-like keys, which a JavaScript
  object lists first, are not modelled.
- Statistics.NativeText: the text that `+ 1` makes of an inherited method
  is written as V8 prints built-in functions, on one line. Other engines
  lay it out differently, and the language standard leaves that text to the
  engine.
- Validators: the regular expressions are replaced by their stated
  meaning.
  - `\s` is the fixed character list in `Validators.IsJsSpace`, ECMAScript's
    white space and line terminators. Later additions to Unicode's space
    category are not tracked.
  - `isValidCPF` on a non-string argument is not modelled.
- Not modelled, because they are presentation or environment, not data:
  - in utils.js: `formatDate`, `formatCurrency`, `generateId` and the
    browser helpers;
  - in status-config.js: `getStatusBadge` (HTML);
  - `console` output and `alert`;
  - the `window` globals;
  - the environment guard and the `try`/`catch` around seeding in init.js.
- Seed.SeedFromEmpty: the end state of seeding is proved only for distinct
  clock readings of the two cases. Seed.SeedSameMillisecond covers the
  shared-millisecond case separately, and Seed.SeedCounts gives the record
  counts for every clock. The general equality with `SeedSpec` holds for
  every clock (Seed.InitSampleData).
- The asymmetry of `updateCaseTimeline` is modelled as written: it writes
  only the embedded timeline, never the flat one, and its entry has no
  `case_id`.
- `label` in the status table is called `caption` in `StatusConfig.StatusInfo`.
  This is a naming change only.

## Findings

| source | as written | input that shows it | evidently intended | confidence | as-written member | corrected member |
|---|---|---|---|---|---|---|
| status-config.js:71-78 | `STATUS_CONFIG[status] \|\| fallback` also finds members inherited from `Object.prototype` | `getStatusConfig('toString')` returns the built-in function instead of a configuration object | any status not in the table gets the "Desconhecido" fallback | not executed | StatusConfig.GetStatusConfigAsWritten | StatusConfig.GetStatusConfig |
| database.js:321-326 | the count objects are created as `{}`, so `statusCounts[c.status] \|\| 0` reads an inherited member when the status names one | two cases with status `'toString'` give the count "function toString() { [native code] }11"; a status `'__proto__'` is counted nowhere | each status and area counted as a number of cases | not executed | Statistics.StatisticsAsWritten | Statistics.StatisticsOf |
| status-config.js:100-108 | `STATUS_CONFIG[currentStatus]` finds an inherited member, which passes `if (!config)` and has no `nextStatus` to map over | `getNextStatusOptions('toString')` throws a `TypeError` | `[]` for any status not in the table | not executed | StatusConfig.NextStatusOptionsAsWritten | StatusConfig.NextStatusOptions |

The discrepancies are exhibited by `StatusConfig.GetStatusConfigInherited`,
`Statistics.InheritedStatusCountsAsText`, `Statistics.ProtoStatusUncounted`
and `StatusConfig.NextStatusOptionsInherited`. `Statistics.StatisticsAgree`
shows that the statistics as written are the intended ones whenever no
status or area names an inherited member, and the store's `getStatistics`
method is proved against the statistics as written.

Identifiers come from the clock alone, so two records of one type created
in the same millisecond share an id (`Ids.NewIdInjective`). `initSampleData`
adds its two cases back to back (init.js:32-54), which makes this likely.
When it happens, the second case's "Pedido recebido" entry is embedded into
the first case, and the second case keeps an empty timeline
(`StoreLemmas.AddTwoCasesSameMillisecond`, `Seed.SeedSameMillisecond`). A related observation about
data rather than code: the CPF of the seed client, `123.456.789-00`
(init.js:27), is rejected by `isValidCPF`. This is shown by
`Validators.SampleCpfInvalid`, and `Validators.SampleCpfCorrected` shows
that `123.456.789-09` passes.
