# Offline-first compliance ERP: verified model of the core

This project models the core of a Next.js/React ERP front end for Nigerian
businesses. The model covers these parts:

- **The offline sync manager** (`lib/offline-sync.ts`). It is a singleton that holds an
  in-memory queue of pending create/update/delete operations and mirrors it into an
  IndexedDB database. That database has four record stores, a queue store and a
  metadata store. The manager replays the queue against the REST endpoints
  `/api/compliance/<table>` whenever the browser is online. A failed item is retried up
  to its `maxRetries` and then dropped. The manager is a Dafny `class`. The database is
  an explicit `Disk` value, and the server's replies are a sequence of `Reply` values
  that each request consumes in turn.
- **The storage hook** (`hooks/use-offline-storage.ts`). It is a class over the manager.
  It keeps the component's record list, writes records through and enqueues one sync
  item per record.
- **The React components' state updaters and validators.** Each is a pure function
  from the old state to the new one. The modelled components are:
  - the tax filing form: progress, validation and submit gating;
  - the AI form assistant: suggestion rules, apply and dismiss;
  - the compliance data table: filter, stable sort, pagination and selection;
  - the notification centre, the notification bell and the toast hook;
  - the journal-entry, employee-salary, lead, product, document and document-upload forms;
  - the inventory and documents dashboards;
  - the offline status panel, whose state is a class.
- **The routing middleware** (`middleware.ts`): the onboarding cookie and the redirects.

Two shared modules sit underneath. `Common` holds sequence filters, string trimming,
ASCII lower-casing, substring search, lexicographic order and number printing.
`JsNumbers` holds `Number.parseFloat` and `Number(...)` on decimal text. NaN is `None`,
and numbers are exact reals.

Time (`Date.now()`), random ids, the network's answers and `navigator.onLine` are
parameters of the operations that use them.

## Model

| member | source | states |
|---|---|---|
| OfflineSync.ListValues | lib/offline-sync.ts:85-88 | `getAll` on a store returns each stored value exactly once |
| OfflineSync.PutAll | lib/offline-sync.ts:98-104 | the puts keep the store keyed by id and report success exactly when every record has an id; a record without one stops the puts after it |
| OfflineSync.PutAllLastWins | lib/offline-sync.ts:98-104 | when one batch holds two records with the same id, the later one is stored |
| OfflineSync.PutAllKeepsOthers | lib/offline-sync.ts:98-104 | keys that no record of the batch uses keep their old value |
| OfflineSync.SyncRequest | lib/offline-sync.ts:172-200 | create is POST to the table endpoint with the data as body; update is PUT and delete is DELETE to `endpoint/<data.id>`; only delete has no body |
| OfflineSync.SameRequestSameOperation | lib/offline-sync.ts:172-200 | two items that send the same request have the same type; their bodies agree, and for creates so do their tables |
| OfflineSync.Ids | lib/offline-sync.ts:207-208 | the ids of the queue, position by position |
| OfflineSync.Lookup | lib/offline-sync.ts:154-157 | finds an item with the given id that is in the queue; it is absent exactly when no item has the id |
| OfflineSync.LookupAt | lib/offline-sync.ts:154-157 | with unique ids, looking up an item's id finds that item |
| OfflineSync.RemoveById | lib/offline-sync.ts:207-208 | the queue keeps exactly the items with another id |
| OfflineSync.BumpRetry | lib/offline-sync.ts:160 | the items with the id get their retry count raised by one; the others stay |
| OfflineSync.Fate | lib/offline-sync.ts:156-165 | an item leaves the queue exactly when it succeeded or reached `maxRetries`; otherwise it stays with one more retry |
| OfflineSync.IdsOfRemove | lib/offline-sync.ts:207-208 | removing an item removes its id from the id list, in order |
| OfflineSync.IdsOfBump | lib/offline-sync.ts:160 | a retry leaves the id list unchanged |
| OfflineSync.RemoveIds | lib/offline-sync.ts:207-208 | removal keeps ids unique and drops exactly the removed id |
| OfflineSync.AppendFresh | lib/offline-sync.ts:134 | pushing an item with a fresh id appends that id and keeps ids unique |
| OfflineSync.IdsAfterAttempt | lib/offline-sync.ts:154-167 | one attempt keeps the ids in order and unique, and drops the item's id exactly when the item leaves |
| OfflineSync.LookupRemove | lib/offline-sync.ts:207-208 | after a removal the removed id is gone, and every other id finds what it found before |
| OfflineSync.LookupBump | lib/offline-sync.ts:160 | after a retry only the bumped item differs |
| OfflineSync.LookupStep | lib/offline-sync.ts:154-167 | after one attempt the attempted id finds the item's fate, and every other id finds what it found before |
| OfflineSync.PassKeepsOthers | lib/offline-sync.ts:152-167 | a pass over a snapshot leaves items outside the snapshot unchanged |
| OfflineSync.PassFate | lib/offline-sync.ts:152-167 | after a pass each snapshot item has met the fate of its own reply |
| OfflineSync.PassIds | lib/offline-sync.ts:152-167 | a pass keeps the queue's order and unique ids |
| OfflineSync.LookupAppend | lib/offline-sync.ts:134 | appending an item leaves lookups of other ids unchanged |
| OfflineSync.StepAppend | lib/offline-sync.ts:134 | an attempt on another id commutes with appending an item |
| OfflineSync.PassAppend | lib/offline-sync.ts:134 | an item pushed after the snapshot is untouched by the pass and stays last |
| OfflineSync.AllSucceeded | lib/offline-sync.ts:154-157 | when every request succeeds, the pass empties the queue |
| OfflineSync.FailedPassOfOne | lib/offline-sync.ts:158-165 | a failed attempt drops the item once `retryCount + 1 >= maxRetries` and otherwise keeps it with one more retry |
| OfflineSync.RetriesThenAbandons | lib/offline-sync.ts:158-165 | a fresh item that keeps failing is still queued after k < maxRetries passes and is gone after maxRetries passes |
| OfflineSync.FailedPassesLast | lib/offline-sync.ts:158-165 | the k-th failed pass is one more pass over the queue the first k-1 passes left |
| OfflineSync.DefaultMaxRetries | lib/offline-sync.ts:131 | `maxRetries || 3`: a missing or zero limit becomes 3, and any other limit is kept |
| OfflineSync.NewItem | lib/offline-sync.ts:126-132 | the queued item carries the caller's type, table and data, the given id and time, a retry count of 0 and a non-zero limit |
| OfflineSync.Outcomes | lib/offline-sync.ts:202-204 | the i-th attempt of a pass succeeds exactly when the i-th reply exists and is ok |
| OfflineSync.RestStep | lib/offline-sync.ts:202-204 | consuming replies one at a time agrees with `Outcomes` |
| OfflineSync.EmptyStores | lib/offline-sync.ts:47-58 | the four record stores, each empty (and what `clearOfflineData` leaves, lines 243-249) |
| OfflineSync.PassUnfold | lib/offline-sync.ts:154-167 | a pass is its first attempt followed by the pass over the rest of the snapshot |
| OfflineSync.AfterPassDiskStep | lib/offline-sync.ts:157-164 | the database queue loses an item exactly when that item leaves the in-memory queue and the database is open (the removals reach the database at lines 210-214) |
| OfflineSync.AttemptStep | lib/offline-sync.ts:154-167 | the next attempt of a pass on course is at the next snapshot item, and after it its consumed reply, request and removal leave the pass on course |
| OfflineSync.OfflineSyncManager.constructor | lib/offline-sync.ts:19-31 | the manager starts with an empty in-memory queue, no sync in progress, the given online flag, and a database not yet open |
| OfflineSync.OfflineSyncManager.OpenDatabase | lib/offline-sync.ts:33-67 | the database becomes open and nothing else changes |
| OfflineSync.OfflineSyncManager.LoadSyncQueue | lib/offline-sync.ts:80-90 | with no database nothing happens; otherwise the in-memory queue becomes a listing of the stored queue |
| OfflineSync.OfflineSyncManager.HandleOnline | lib/offline-sync.ts:70-73 | the manager goes online and runs one full pass over a snapshot of the queue, unless a pass is running or the queue is empty (the pass of lines 147-170) |
| OfflineSync.OfflineSyncManager.HandleOffline | lib/offline-sync.ts:75-77 | only the online flag changes |
| OfflineSync.OfflineSyncManager.SaveOfflineData | lib/offline-sync.ts:92-110 | with no database nothing happens and the call resolves; a table that names no store fails with nothing written; otherwise the call succeeds exactly when every record has the store's key path (`id`, or `key` for `metadata`); records going to a data store are put there, and `lastSync` becomes the time when the puts succeed |
| OfflineSync.OfflineSyncManager.GetOfflineData | lib/offline-sync.ts:112-123 | with no database the result is `[]`; a table that names no store fails; a data store lists its records, the `syncQueue` store its items, each exactly once, and `metadata` gives the `lastSync` time exactly when one is stored |
| OfflineSync.OfflineSyncManager.InFlight | lib/offline-sync.ts:154 | during a pass, the item being synced is in the queue under the first pending id |
| OfflineSync.OfflineSyncManager.AddToSyncQueue | lib/offline-sync.ts:125-145 | exactly one new item is pushed (the push log grows by it) and persisted when the database is open; when online and idle, a full pass then runs over the longer queue, otherwise the queue is the old one plus the item |
| OfflineSync.OfflineSyncManager.StartSyncPass | lib/offline-sync.ts:147-152 | when online, idle and non-empty, the manager marks a sync in progress and snapshots the queue's ids |
| OfflineSync.OfflineSyncManager.RemoveSyncQueueItem | lib/offline-sync.ts:207-215 | the item leaves the in-memory queue, and also the database when it is open |
| OfflineSync.OfflineSyncManager.CompleteAttempt | lib/offline-sync.ts:155-166 | one snapshot item is sent, consumes one reply, and is removed, bumped or dropped by that reply (the request is built at lines 172-205) |
| OfflineSync.OfflineSyncManager.AttemptInPass | lib/offline-sync.ts:154-167 | one loop iteration keeps the pass invariant: the queue is the pass over the attempted prefix, and the requests are those of the prefix |
| OfflineSync.OfflineSyncManager.ProcessSyncQueue | lib/offline-sync.ts:147-170 | guarded: a pass sends one request per snapshot item in order, leaves the queue equal to `Pass` over the replies, mirrors removals into the database and resets the flag |
| OfflineSync.OfflineSyncManager.GetLastSyncTime | lib/offline-sync.ts:217-230 | 0 with no database; otherwise the stored `lastSync`, or 0 when it is missing |
| OfflineSync.OfflineSyncManager.GetSyncQueueLength | lib/offline-sync.ts:232-234 | the length of the in-memory queue |
| OfflineSync.OfflineSyncManager.ClearOfflineData | lib/offline-sync.ts:240-250 | with an open database the four record stores and the queue store are emptied and metadata stays; the in-memory queue and its length are not touched |
| OfflineSync.RestartAsWritten | lib/offline-sync.ts:27-31 | as written, a new manager loads the queue before the database is open, so a persisted non-empty queue comes back with nothing in it (the early return at line 81) |
| OfflineSync.RestartWithReload | lib/offline-sync.ts:27-31 | loading after the database opens restores exactly the persisted items, one per stored key, as the in-memory queue (the load at lines 80-90) |
| OfflineStorage.Records | hooks/use-offline-storage.ts:41 | a single record is wrapped in a one-element array; an array is taken as is |
| OfflineStorage.FindIndex | hooks/use-offline-storage.ts:48 | the first index with the id, or -1 exactly when no record has it |
| OfflineStorage.UpsertReplacesFirst | hooks/use-offline-storage.ts:47-53 | a record whose id is present replaces the first record with that id, in place |
| OfflineStorage.UpsertAppends | hooks/use-offline-storage.ts:54 | a record with a new id is appended |
| OfflineStorage.UpsertIdempotent | hooks/use-offline-storage.ts:47-55 | saving the same record twice is saving it once, and the record is then present |
| OfflineStorage.RemoveRecord | hooks/use-offline-storage.ts:74 | the list keeps exactly the records with another id, in order |
| OfflineStorage.RemoveAbsent | hooks/use-offline-storage.ts:74 | deleting an id that no record has changes nothing |
| OfflineStorage.KindFor | hooks/use-offline-storage.ts:64 | a record with a truthy id is an update and any other record is a create; never a delete |
| OfflineStorage.QueueItemsFor | hooks/use-offline-storage.ts:62-69 | one queue item per record, in order, with the record's type, the table and a limit of 3 |
| OfflineStorage.OfflineStorageHook.constructor | hooks/use-offline-storage.ts:6-9 | the hook, over any table, starts with the initial data, loading, and the browser's online flag |
| OfflineStorage.OfflineStorageHook.Load | hooks/use-offline-storage.ts:12-23 | loading ends; without a database, or for a record table that is empty or names no store, the data stays; a non-empty data store replaces the data with a listing of its records |
| OfflineStorage.OfflineStorageHook.SetOnline | hooks/use-offline-storage.ts:25-27 | only the online flag changes |
| OfflineStorage.OfflineStorageHook.SaveData | hooks/use-offline-storage.ts:40-70 | the local list is replaced or upserted; the write succeeds exactly when there is no database or the store takes every record, and puts them into a data store; after a successful write one item per record, in order, with the record's type and limit 3 is pushed, online or not (offline the queue grows by exactly those items); after a failed write nothing is pushed |
| OfflineStorage.OfflineStorageHook.EnqueueAll | hooks/use-offline-storage.ts:62-69 | the items pushed are exactly `QueueItemsFor`, in order, online or not; while offline the queue grows by exactly them; no record store changes |
| OfflineStorage.OfflineStorageHook.Enqueue | hooks/use-offline-storage.ts:63-68 | exactly one item is pushed, online or not: the record with its type, the table and limit 3; while offline the queue grows by that item |
| OfflineStorage.OfflineStorageHook.DeleteData | hooks/use-offline-storage.ts:72-83 | the records with the id leave the local list and exactly one delete of `{id}` with limit 3 is pushed, online or not; while offline the queue grows by that item; no record store changes |
| OfflineStorage.OfflineStorageHook.Refresh | hooks/use-offline-storage.ts:91-95 | loading ends and the data stays as it was |
| TaxFilingForm.FilledCount | components/forms/tax-filing-form.tsx:65-74 | at most the seven required fields are counted as filled |
| TaxFilingForm.Progress | components/forms/tax-filing-form.tsx:75 | `Math.round(k / 7 * 100)`: within half a point of the exact percentage, with halves rounded up |
| TaxFilingForm.ProgressValues | components/forms/tax-filing-form.tsx:75 | the eight possible percentages; 0 only for none filled, 100 only for all, and at least 70 exactly from five fields (the 70% submit gate at line 529) |
| TaxFilingForm.HasItemMeans | components/forms/tax-filing-form.tsx:93-140 | a validation of a field and kind is reported exactly when some list item has that field and kind |
| TaxFilingForm.HasItemConcat | components/forms/tax-filing-form.tsx:93-140 | a report in a joined list is a report in one of its parts |
| TaxFilingForm.Opt | components/forms/tax-filing-form.tsx:96-137 | a check adds its item exactly when it fails |
| TaxFilingForm.FirstFiveReports | components/forms/tax-filing-form.tsx:96-113 | the first five checks report errors on exactly the failed fields |
| TaxFilingForm.ItemsForReports | components/forms/tax-filing-form.tsx:93-140 | the list holds a field and kind exactly when the rule for that field fails |
| TaxFilingForm.ValidationsReport | components/forms/tax-filing-form.tsx:93-140 | per field, both directions: filing type, period, dates (missing or out of order), revenue (empty, not a number, or negative), submitter name and role, and declaration are errors exactly when wrong; a VAT warning appears exactly for a VAT filing with no amount |
| TaxFilingForm.OnlyVatWarns | components/forms/tax-filing-form.tsx:135-137 | the only warning is the one on the VAT amount |
| TaxFilingForm.PushIf | components/forms/tax-filing-form.tsx:96-98 | one `if (...) errors.push(...)`: the item is appended exactly when the check fails |
| TaxFilingForm.ValidateForm | components/forms/tax-filing-form.tsx:93-140 | the list built by pushes equals the validation list of the data |
| TaxFilingForm.DigitRevenueAccepted | components/forms/tax-filing-form.tsx:112-116 | a revenue of plain digits passes the revenue check |
| TaxFilingForm.NegativeRevenueRejected | components/forms/tax-filing-form.tsx:114-115 | a negative revenue fails as "not a valid positive number" |
| TaxFilingForm.HandleSubmit | components/forms/tax-filing-form.tsx:155-161 | submission goes ahead exactly when no item of the list is an error |
| TaxFilingForm.ErrorWitness | components/forms/tax-filing-form.tsx:159 | any reported error makes the error filter non-empty |
| TaxFilingForm.SetField | components/forms/tax-filing-form.tsx:84 | the edited field takes the value and every other field stays |
| TaxFilingForm.HandleInputChangeAsWritten | components/forms/tax-filing-form.tsx:83-91 | as written, the progress that the timer sets is computed from the data before the edit |
| TaxFilingForm.StaleProgressBlocksSubmit | components/forms/tax-filing-form.tsx:83-91 | filling the fifth required field shows 57% and keeps submit disabled (the 70% submit gate at line 529) |
| TaxFilingForm.HandleInputChange | components/forms/tax-filing-form.tsx:83-91 | the field is set; the validations of exactly that field are cleared; the progress is that of the new data |
| TaxFilingForm.SubmitTracksFilledFields | components/forms/tax-filing-form.tsx:529 | with up-to-date progress, submit is enabled (when not saving) exactly from five filled fields |
| TaxFilingForm.DateEditsKeepDateErrors | components/forms/tax-filing-form.tsx:87 | editing a start or end date does not clear the "dates" errors, whose key names neither field (the dates errors are pushed at line 105) |
| TaxFilingForm.ClearingIsIdempotent | components/forms/tax-filing-form.tsx:87 | the same edit twice leaves the same validations as once |
| AiFormAssistant.HasIdWhen | components/ai/ai-form-assistant.tsx:62-64 | a guarded push yields its suggestion's id exactly when the guard holds |
| AiFormAssistant.HasIdConcat | components/ai/ai-form-assistant.tsx:57-222 | an id is in a joined list exactly when it is in one of the parts |
| AiFormAssistant.Scale | components/ai/ai-form-assistant.tsx:63 | NaN stays NaN, and a number is multiplied by the rate (and the PAYE rate at line 132) |
| AiFormAssistant.EstimateAmount | components/ai/ai-form-assistant.tsx:63 | the revenue estimate is a number exactly when `parseFloat` of the revenue is, and then it is that number times the rate (and the PAYE estimate at line 132) |
| AiFormAssistant.CompletedFields | components/ai/ai-form-assistant.tsx:115-116 | at most the six fields listed are counted as completed |
| AiFormAssistant.SuggestedType | components/ai/ai-form-assistant.tsx:151-160 | the title suggests a bank statement, a receipt, a tax certificate, or nothing |
| AiFormAssistant.PushWhen | components/ai/ai-form-assistant.tsx:62-76 | one guarded push: the suggestion is appended exactly when its rule applies |
| AiFormAssistant.GenerateSuggestions | components/ai/ai-form-assistant.tsx:57-223 | the list built by pushes equals the rule-based suggestion list |
| AiFormAssistant.RegulatoryReportGetsNone | components/ai/ai-form-assistant.tsx:57-223 | a regulatory report gets no suggestions |
| AiFormAssistant.CompletionBand | components/ai/ai-form-assistant.tsx:117-119 | the 70-100% completion band holds exactly five of the six fields |
| AiFormAssistant.TaxSuggestionHas | components/ai/ai-form-assistant.tsx:60-146 | a tax suggestion id appears exactly when its own rule applies |
| AiFormAssistant.TaxFilingRules | components/ai/ai-form-assistant.tsx:60-146 | both directions for each tax rule: VAT with revenue and no amount; a VAT filing that is not monthly; a range of more than 93 days; five of six fields; PAYE with revenue and no amount; no document suggestions |
| AiFormAssistant.DocumentSuggestionHas | components/ai/ai-form-assistant.tsx:148-220 | a document suggestion id appears exactly when its own rule applies |
| AiFormAssistant.DocumentUploadRules | components/ai/ai-form-assistant.tsx:148-220 | both directions: a type from the lower-cased title when none is chosen; a category for the five mapped types when none is chosen; high priority for a certificate; no tax suggestions |
| AiFormAssistant.BankBeforeReceipt | components/ai/ai-form-assistant.tsx:154-157 | a title naming both a bank and a receipt suggests a bank statement |
| AiFormAssistant.SuggestedTypeThenCategory | components/ai/ai-form-assistant.tsx:162-189 | the type the title suggests always has a category |
| AiFormAssistant.DismissSuggestion | components/ai/ai-form-assistant.tsx:232-234 | the list keeps exactly the suggestions with another id, in order |
| AiFormAssistant.ApplySuggestion | components/ai/ai-form-assistant.tsx:225-230 | without an action nothing happens; with one the action's field and value are reported and the suggestion is dismissed |
| AiFormAssistant.DismissAbsent | components/ai/ai-form-assistant.tsx:232-234 | dismissing an id that is not shown changes nothing |
| AiFormAssistant.DismissTwice | components/ai/ai-form-assistant.tsx:232-234 | dismissing twice is dismissing once |
| AiFormAssistant.TaxMembers | components/ai/ai-form-assistant.tsx:60-146 | every tax suggestion is one of the five rule suggestions |
| AiFormAssistant.DocumentMembers | components/ai/ai-form-assistant.tsx:148-220 | every document suggestion is one of the three rule suggestions |
| AiFormAssistant.TaxSettles | components/ai/ai-form-assistant.tsx:225-228 | applying a tax suggestion's value makes that suggestion disappear on the next analysis (the rules of lines 62-145) |
| AiFormAssistant.DocumentSettles | components/ai/ai-form-assistant.tsx:225-228 | applying a document suggestion's value makes it disappear on the next analysis (the rules of lines 150-219) |
| AiFormAssistant.AppliedSuggestionSettles | components/ai/ai-form-assistant.tsx:225-228 | for any form type, an applied suggestion with an action is not offered again (the analysis re-runs on each change, lines 42-44) |
| ComplianceTable.InitialFiltersKeepAll | components/tables/compliance-data-table.tsx:136-164 | with the initial filters no record is filtered out |
| ComplianceTable.BeforeIrreflexive | components/tables/compliance-data-table.tsx:168-175 | no record sorts before itself |
| ComplianceTable.BeforeAsymmetric | components/tables/compliance-data-table.tsx:168-175 | the comparator is asymmetric in both directions of the sort |
| ComplianceTable.BeforeTransitive | components/tables/compliance-data-table.tsx:168-175 | the comparator is transitive |
| ComplianceTable.BeforeTotal | components/tables/compliance-data-table.tsx:168-175 | records with different keys are ordered one way or the other |
| ComplianceTable.Insert | components/tables/compliance-data-table.tsx:168 | insertion adds exactly one record to the multiset |
| ComplianceTable.SortBy | components/tables/compliance-data-table.tsx:168-175 | sorting is a permutation |
| ComplianceTable.NotBeforeVia | components/tables/compliance-data-table.tsx:172-173 | when e is not before c and x is before c, then e is not before x |
| ComplianceTable.InsertOrdered | components/tables/compliance-data-table.tsx:168-175 | insertion into an ordered list keeps it ordered |
| ComplianceTable.SortOrdered | components/tables/compliance-data-table.tsx:168-175 | the sorted list is ordered by the key and direction |
| ComplianceTable.InsertStable | components/tables/compliance-data-table.tsx:168-175 | insertion keeps records with equal keys in input order |
| ComplianceTable.SortStable | components/tables/compliance-data-table.tsx:168-175 | the sort is stable: records with equal keys keep their input order |
| ComplianceTable.FilteredMembers | components/tables/compliance-data-table.tsx:151-179 | a record is shown exactly when it is in the data and matches every filter |
| ComplianceTable.UnsortedKeepsOrder | components/tables/compliance-data-table.tsx:152-167 | with no sort key the rows keep their order in the data |
| ComplianceTable.SortedView | components/tables/compliance-data-table.tsx:151-179 | with a sort key, the rows are a permutation of the filtered rows, ordered, and stable on ties |
| ComplianceTable.HandleSort | components/tables/compliance-data-table.tsx:185-190 | the key becomes the clicked column; the direction is descending exactly when the same column was ascending |
| ComplianceTable.HandleSortTwice | components/tables/compliance-data-table.tsx:185-190 | two clicks on the sorted column restore the configuration |
| ComplianceTable.CeilDivFacts | components/tables/compliance-data-table.tsx:182 | the facts about ceiling division that `Math.ceil` gives |
| ComplianceTable.TotalPages | components/tables/compliance-data-table.tsx:182 | the least page count that covers every row |
| ComplianceTable.SliceIndex | components/tables/compliance-data-table.tsx:183 | `slice` clamps an index into the array |
| ComplianceTable.Slice | components/tables/compliance-data-table.tsx:183 | a slice is never longer than the array |
| ComplianceTable.PageAtMost | components/tables/compliance-data-table.tsx:183 | a page holds at most `itemsPerPage` rows |
| ComplianceTable.PageWindow | components/tables/compliance-data-table.tsx:183 | page p is the rows from (p-1)·k to p·k, clamped |
| ComplianceTable.PageNonEmptyIff | components/tables/compliance-data-table.tsx:182-183 | a page is non-empty exactly when its number is at most the page count |
| ComplianceTable.MulMonotone | components/tables/compliance-data-table.tsx:183 | page starts grow with the page number |
| ComplianceTable.RowOnPage | components/tables/compliance-data-table.tsx:182-183 | every row appears on page i/k+1 at position i mod k |
| ComplianceTable.PrevPage | components/tables/compliance-data-table.tsx:632 | Previous never goes below page 1 and moves back from any later page |
| ComplianceTable.NextPage | components/tables/compliance-data-table.tsx:640 | Next never passes the page count or skips a page |
| ComplianceTable.NavigationSteps | components/tables/compliance-data-table.tsx:626-649 | on a valid page, enabled buttons move by one and stay within 1..total |
| ComplianceTable.ZeroPagesReachPageZero | components/tables/compliance-data-table.tsx:640-649 | with no rows, Next and Last stay enabled on page 1 and go to page 0, which shows nothing (`totalPages` at line 182) |
| ComplianceTable.NextPageClamped | components/tables/compliance-data-table.tsx:640 | the corrected Next never leaves pages 1..max(total, 1) |
| ComplianceTable.LastPageClamped | components/tables/compliance-data-table.tsx:648 | the corrected Last never goes to page 0 |
| ComplianceTable.ClampedNavigation | components/tables/compliance-data-table.tsx:640-649 | the corrected buttons agree with the written ones whenever there is a page, and always stay on page 1 or later |
| ComplianceTable.ToggleSelection | components/tables/compliance-data-table.tsx:192-194 | the clicked id flips in or out, and the other ids stay |
| ComplianceTable.ToggleTwiceAbsent | components/tables/compliance-data-table.tsx:192-194 | checking then unchecking restores the selection |
| ComplianceTable.ToggleTwicePresent | components/tables/compliance-data-table.tsx:192-194 | unchecking then checking keeps the same ids, with the id moved to the end |
| ComplianceTable.ToggleKeepsDistinct | components/tables/compliance-data-table.tsx:192-194 | the selection never holds an id twice |
| ComplianceTable.PageIds | components/tables/compliance-data-table.tsx:197 | the ids of the page, in order |
| ComplianceTable.SelectAll | components/tables/compliance-data-table.tsx:196-198 | as written: clears when the selection is as long as the page, and otherwise selects the page |
| ComplianceTable.SelectAllComparesLengths | components/tables/compliance-data-table.tsx:196-198 | a selection of one other row, on a one-row page, shows the header checked, but that page row is not selected, and clicking it clears everything (the header checkbox at line 466) |
| ComplianceTable.SelectAllFixed | components/tables/compliance-data-table.tsx:196-198 | the corrected header click clears when every page row is selected, and otherwise selects the page (the corrected header check of line 466) |
| ComplianceTable.SelectAllFixedFlips | components/tables/compliance-data-table.tsx:196-198 | on a non-empty page the corrected click flips the header state: from unchecked it selects every page row, and from checked it leaves no page row selected (the corrected header check of line 466) |
| NotificationCenter.FilteredNotifications | components/notifications/notification-center.tsx:194-207 | shown exactly when the tab and the case-blind search both match, in order |
| NotificationCenter.AllTabShowsEverything | components/notifications/notification-center.tsx:194-207 | the "all" tab with no search shows everything |
| NotificationCenter.UnreadTab | components/notifications/notification-center.tsx:197-199 | the unread tab shows unread notifications, and also those whose type is "unread" |
| NotificationCenter.ActionRequiredAtMostUnread | components/notifications/notification-center.tsx:209-210 | the action-required count never exceeds the unread count |
| NotificationCenter.MarkAsRead | components/notifications/notification-center.tsx:212-214 | the notifications with the id become read, and the others are unchanged |
| NotificationCenter.MarkAsReadIdempotent | components/notifications/notification-center.tsx:212-214 | marking twice is marking once |
| NotificationCenter.MarkAsReadClears | components/notifications/notification-center.tsx:209-214 | a marked id has no unread notification left |
| NotificationCenter.MarkAllAsRead | components/notifications/notification-center.tsx:216-218 | every notification becomes read and is otherwise unchanged |
| NotificationCenter.MarkAllAsReadCounts | components/notifications/notification-center.tsx:209-218 | after mark-all both counters are zero |
| NotificationCenter.DeleteNotification | components/notifications/notification-center.tsx:220-222 | exactly the notifications with another id stay, in order |
| NotificationCenter.DeleteAbsent | components/notifications/notification-center.tsx:220-222 | deleting an absent id changes nothing |
| NotificationCenter.HandleBulkAction | components/notifications/notification-center.tsx:224-231 | read marks the selected ids; delete removes them; archive changes nothing; the selection is always cleared |
| NotificationCenter.BulkReadOfOne | components/notifications/notification-center.tsx:224-226 | a bulk read of one id is a single mark-as-read (a single mark is lines 212-214) |
| NotificationCenter.BulkDeleteOfOne | components/notifications/notification-center.tsx:220-228 | a bulk delete of one id is a single delete |
| NotificationCenter.HandleNotificationAction | components/notifications/notification-center.tsx:233-237 | running an action marks its notification read |
| NotificationCenter.FormatTimestamp | components/notifications/notification-center.tsx:271-280 | floor hours: under 1 is "Just now", under 24 is "Nh ago", under 48 is "Yesterday", otherwise the locale date (also for an invalid date) |
| NotificationCenter.FutureIsJustNow | components/notifications/notification-center.tsx:274-276 | anything under an hour, including a timestamp in the future, reads "Just now" |
| NotificationCenter.HoursAgoLabel | components/notifications/notification-center.tsx:277 | from one through 23 hours, the label shows that hour count in one or two digits |
| NotificationBell.UnreadCount | components/notifications/notification-bell.tsx:49 | the badge count is at most the number of notifications |
| NotificationBell.BadgeZeroIff | components/notifications/notification-bell.tsx:49 | the badge is zero exactly when everything is read |
| NotificationBell.MarkAllAsRead | components/notifications/notification-bell.tsx:51-53 | all become read, with the other fields unchanged |
| NotificationBell.MarkAsRead | components/notifications/notification-bell.tsx:55-57 | read exactly when it was read already or has the id; other fields unchanged |
| NotificationBell.MarkAllAsReadClearsBadge | components/notifications/notification-bell.tsx:49-53 | mark-all clears the badge |
| NotificationBell.MarkAsReadCount | components/notifications/notification-bell.tsx:55-57 | the badge drops by exactly the number of unread notifications with the id (the count of line 49) |
| NotificationBell.MarkOneUnread | components/notifications/notification-bell.tsx:55-57 | with unique ids, marking an unread notification lowers the badge by one (the count of line 49) |
| NotificationBell.OnlyOneMatch | components/notifications/notification-bell.tsx:55-57 | with unique ids only that notification matches |
| Toasts.AddToast | components/notifications/toast-notifications.tsx:131-140 | the toast is appended with the returned id, the caller's fields, and a duration that defaults to 5000 |
| Toasts.RemoveToast | components/notifications/toast-notifications.tsx:142-144 | exactly the toasts with another id stay, in order |
| Toasts.ClearAllToasts | components/notifications/toast-notifications.tsx:146-148 | no toast is left |
| Toasts.RemoveAfterAdd | components/notifications/toast-notifications.tsx:131-144 | removing a toast just added under a fresh id restores the list |
| Toasts.HelperDurations | components/notifications/toast-notifications.tsx:151-173 | success, warning and info last 5000 and AI suggestions 8000; errors and deadlines get 0 and are never auto-dismissed (the timer test of line 34) |
| Toasts.AddedToastTimer | components/notifications/toast-notifications.tsx:29-40 | an added toast gets a dismiss timer exactly when its duration is defaulted or positive (the default of lines 131-137) |
| TransactionForm.Difference | components/accounting/transaction-form.tsx:261 | the shown difference is non-negative and zero exactly when the totals agree |
| TransactionForm.DifferenceShownIff | components/accounting/transaction-form.tsx:259-261 | the difference line appears exactly when the totals differ, and it then shows a positive amount (the balance test of line 73) |
| TransactionForm.InitialNotBalanced | components/accounting/transaction-form.tsx:30-33 | the blank form has zero totals and Save starts disabled (the balance test of line 73 and the disabled Save of line 99) |
| TransactionForm.TotalsAppend | components/accounting/transaction-form.tsx:71-72 | column totals add over concatenation |
| TransactionForm.AddEntry | components/accounting/transaction-form.tsx:50-59 | a blank line with the new id is appended |
| TransactionForm.AddEntryKeepsTotals | components/accounting/transaction-form.tsx:50-59 | a new line leaves both totals unchanged (the totals of lines 71-72) |
| TransactionForm.RemoveEntry | components/accounting/transaction-form.tsx:61-65 | with more than two lines, exactly the lines with another id stay; otherwise nothing changes |
| TransactionForm.FilterDropsAtMostOne | components/accounting/transaction-form.tsx:61-65 | with distinct ids, a removal drops at most one line |
| TransactionForm.RemoveKeepsTwo | components/accounting/transaction-form.tsx:61-65 | with distinct ids, the form never has fewer than two lines (the disabled remove button of line 236) |
| TransactionForm.Apply | components/accounting/transaction-form.tsx:67-69 | an update keeps the line's id |
| TransactionForm.UpdateEntry | components/accounting/transaction-form.tsx:67-69 | the lines with the id get the new field value; the others and every id stay |
| TransactionForm.ApplyChangesOneField | components/accounting/transaction-form.tsx:68 | only the named column changes |
| TransactionForm.UpdateDebitTotals | components/accounting/transaction-form.tsx:67-72 | setting one debit moves the debit total by the change and leaves credits alone |
| TransactionForm.UpdateAbsent | components/accounting/transaction-form.tsx:67-69 | updating an absent id changes nothing |
| EmployeeForm.CalculateNetSalary | components/payroll/employee-form.tsx:104-124 | basic is `parseFloat(...) \|\| 0`; allowances and deductions are the sums of the contributions by type; net is basic + allowances - deductions |
| EmployeeForm.SumComponents | components/payroll/employee-form.tsx:109-117 | the loop totals equal the allowance and deduction sums |
| EmployeeForm.CountedOnce | components/payroll/employee-form.tsx:111-115 | every component is counted exactly once, on one of the two sides |
| EmployeeForm.SumsAppend | components/payroll/employee-form.tsx:109-117 | the sums add over concatenation |
| EmployeeForm.ZeroBasicKeepsFixedOnly | components/payroll/employee-form.tsx:105-110 | with a basic of 0 only fixed-amount components contribute |
| EmployeeForm.LastAtZeroBasic | components/payroll/employee-form.tsx:110 | at basic 0, a percentage component adds nothing and a fixed one adds its amount |
| EmployeeForm.SumsOfOne | components/payroll/employee-form.tsx:110-115 | a single component goes to its own side |
| EmployeeForm.NonNumericBasicIsZero | components/payroll/employee-form.tsx:105 | a basic salary that is not a number counts as 0 |
| EmployeeForm.InitialBreakdown | components/payroll/employee-form.tsx:46-51 | the starting components give basic/4 + 15000 in allowances and 23% of basic in deductions (the breakdown of lines 104-124) |
| EmployeeForm.AddSalaryComponent | components/payroll/employee-form.tsx:71-81 | a fixed, zero-amount allowance with the new id is appended |
| EmployeeForm.AddKeepsBreakdown | components/payroll/employee-form.tsx:71-81 | adding a component leaves the breakdown unchanged (the breakdown of lines 104-124) |
| EmployeeForm.Apply | components/payroll/employee-form.tsx:83-87 | an update keeps the id and the fixed flag, and changes only its own field |
| EmployeeForm.UpdateSalaryComponent | components/payroll/employee-form.tsx:83-87 | components with the id are updated and the others stay |
| EmployeeForm.RemoveSalaryComponent | components/payroll/employee-form.tsx:89-91 | exactly the components with another id stay, in order |
| EmployeeForm.RemoveAfterAdd | components/payroll/employee-form.tsx:71-91 | removing the component just added restores the list |
| LeadForm.InitialContacts | components/crm/lead-form.tsx:41-43 | the form starts with one primary contact |
| LeadForm.AddContact | components/crm/lead-form.tsx:73-75 | an empty non-primary contact is appended |
| LeadForm.Apply | components/crm/lead-form.tsx:78 | only the named field changes |
| LeadForm.UpdateContact | components/crm/lead-form.tsx:77-80 | the contact at the index is updated; every other contact stays, primaries included |
| LeadForm.RemoveContact | components/crm/lead-form.tsx:82-86 | with more than one contact the indexed one goes and the rest shift down; with one contact, or an index out of range, nothing changes |
| LeadForm.StepKeepsOne | components/crm/lead-form.tsx:73-86 | one action keeps at least one contact and changes the count by at most one |
| LeadForm.RunKeepsOne | components/crm/lead-form.tsx:73-86 | any sequence of actions keeps at least one contact card |
| LeadForm.FromInitialKeepsOne | components/crm/lead-form.tsx:41-86 | from the initial form there is always a contact card |
| LeadForm.PrimaryCountUpdate | components/crm/lead-form.tsx:77-80 | switching one contact's primary flag changes the primary count by exactly that contact (the primary switch of lines 310-313) |
| LeadForm.SecondPrimaryKeepsFirst | components/crm/lead-form.tsx:310-313 | marking a second contact primary leaves the first one primary, so several primaries are possible |
| LeadForm.LeadScoreColor | components/crm/lead-form.tsx:98-103 | green from 80, amber from 60, blue from 40, gray below, each in both directions |
| LeadForm.LeadScoreLabel | components/crm/lead-form.tsx:225 | Hot from 80, Warm from 60, Cold from 40, New below, each in both directions |
| LeadForm.ColorAndLabelAgree | components/crm/lead-form.tsx:98-103 | two scores get the same colour exactly when they get the same label (the label of line 225): both are drawn from one band |
| LeadForm.BandMonotone | components/crm/lead-form.tsx:98-103 | a higher score never shows a lower band (the label of line 225) |
| TagList.AddTag | components/forms/document-upload-form.tsx:136-141 | a tag is added exactly when the input is not all white space and its trimmed text is not yet a tag; then the trimmed text is appended and the input cleared, and otherwise nothing changes |
| TagList.RemoveTag | components/forms/document-upload-form.tsx:143-148 | exactly the other tags stay, in order |
| TagList.AddTagKeepsDistinct | components/forms/document-upload-form.tsx:137-138 | tags stay distinct |
| TagList.AddTagTwice | components/forms/document-upload-form.tsx:137 | adding the same text twice adds it once |
| TagList.RemoveAfterAdd | components/forms/document-upload-form.tsx:136-148 | removing the tag just added restores the tags |
| TagList.RunKeepsDistinct | components/documents/document-form.tsx:71-80 | any sequence of adds and removes keeps the tags distinct |
| DocumentUploadForm.HandleInputChange | components/forms/document-upload-form.tsx:74-76 | the named field takes the value and every other field stays |
| DocumentUploadForm.LastWriteWins | components/forms/document-upload-form.tsx:74-76 | two writes to the same field are the last write |
| DocumentUploadForm.AddTag | components/forms/document-upload-form.tsx:136-141 | the form's tags and the tag input follow `TagList.AddTag` |
| DocumentUploadForm.RemoveTag | components/forms/document-upload-form.tsx:143-148 | the form's tags follow `TagList.RemoveTag` |
| DocumentUploadForm.AddTagOnlyTouchesTags | components/forms/document-upload-form.tsx:136-141 | adding a tag changes no other field and keeps the tags distinct |
| DocumentUploadForm.HandleFileUpload | components/forms/document-upload-form.tsx:78-88 | no file list changes nothing; otherwise one uploading entry at 0% per file is appended, with a preview exactly for images |
| DocumentUploadForm.RemoveFile | components/forms/document-upload-form.tsx:132-134 | exactly the entries of other files stay, in order |
| DocumentUploadForm.RemoveAfterUpload | components/forms/document-upload-form.tsx:78-88 | removing a file after an upload removes it from the old entries and from the new ones (the removal of lines 132-134) |
| DocumentUploadForm.RemoveAbsent | components/forms/document-upload-form.tsx:132-134 | removing a file with no entry changes nothing |
| DocumentForm.HandleFileSelect | components/documents/document-form.tsx:62-65 | the chosen files (none for a null list) are appended |
| DocumentForm.RemoveFile | components/documents/document-form.tsx:67-69 | the indexed file goes and the rest shift down; an index out of range changes nothing |
| DocumentForm.RemoveJustSelected | components/documents/document-form.tsx:62-69 | removing the file just selected restores the selection |
| DocumentForm.ToggleApprover | components/documents/document-form.tsx:275-281 | checking appends the approver; unchecking keeps exactly the others |
| DocumentForm.CheckThenUncheck | components/documents/document-form.tsx:275-281 | checking then unchecking restores the approvers |
| DocumentForm.ClickKeepsDistinct | components/documents/document-form.tsx:274-281 | a click on a box that shows the current state keeps the approvers distinct and flips membership |
| DocumentForm.AddTag | components/documents/document-form.tsx:71-76 | the tags change exactly when the input does; then the trimmed tag is appended and the input cleared |
| DocumentForm.ProgressSteps | components/documents/document-form.tsx:85-88 | the progress shown goes 0, 10, …, 100 in eleven steps |
| DocumentForm.Uploader.constructor | components/documents/document-form.tsx:39-40 | no progress, not uploading, nothing shown |
| DocumentForm.Uploader.HandleUpload | components/documents/document-form.tsx:82-91 | the eleven progress values are shown in order, and then the upload ends at 100% |
| ProductForm.DefaultLocations | components/inventory/product-form.tsx:35-39 | three locations, each with no stock |
| ProductForm.SetField | components/inventory/product-form.tsx:54 | only the named stock field changes |
| ProductForm.UpdateLocationStock | components/inventory/product-form.tsx:52-56 | locations with the id are updated and the others stay |
| ProductForm.EstimatedValue | components/inventory/product-form.tsx:372-377 | 0 for a non-numeric price or no stock; positive for positive stock and price |
| ProductForm.DefaultsHoldNothing | components/inventory/product-form.tsx:35-39 | the default locations total 0 and are worth 0 (the totals of lines 367-377) |
| ProductForm.TotalStockAbsent | components/inventory/product-form.tsx:52-56 | updating an unknown location changes nothing |
| ProductForm.UpdateMovesTotal | components/inventory/product-form.tsx:52-56 | with distinct ids, a current-stock edit moves the total by the change, and min/max edits leave it alone (the total of line 367) |
| ProductForm.Margin | components/inventory/product-form.tsx:71-72 | 0 for zero cost; otherwise margin × cost = (price - cost) × 100 |
| ProductForm.MarginSign | components/inventory/product-form.tsx:71-72 | for a positive cost, the margin is positive exactly when the price exceeds the cost, and negative exactly when it is below |
| ProductForm.PositiveProduct | components/inventory/product-form.tsx:374-375 | a positive stock times a positive price is positive |
| ProductForm.NoCostNoMargin | components/inventory/product-form.tsx:68-73 | a non-numeric cost gives margin 0, shown red (the colour of line 221) |
| ProductForm.MarginGreenIff | components/inventory/product-form.tsx:68-73 | for a positive cost, the margin shows green exactly when the price exceeds the cost (the colour of line 221) |
| InventoryDashboard.GetStockStatus | components/inventory/inventory-dashboard.tsx:140-144 | out of stock at 0; low at or below the minimum; in stock otherwise |
| InventoryDashboard.ExactlyOneStatus | components/inventory/inventory-dashboard.tsx:140-144 | exactly one of the three statuses |
| InventoryDashboard.EmptyBeatsMinimum | components/inventory/inventory-dashboard.tsx:141 | zero stock is out of stock whatever the minimum |
| InventoryDashboard.RestockMarksInStock | components/inventory/inventory-dashboard.tsx:142-143 | a positive stock at or below the minimum is low; stock above the minimum is in stock |
| DocumentsDashboard.FilteredDocuments | components/documents/documents-dashboard.tsx:111-118 | shown exactly when the name or a tag contains the search (case-blind), and the category and status match, in order |
| DocumentsDashboard.InitialFilterShowsAll | components/documents/documents-dashboard.tsx:111-118 | an empty search with "all" filters shows every document |
| DocumentsDashboard.FoundByTag | components/documents/documents-dashboard.tsx:114 | a document is found by any of its tags |
| DocumentsDashboard.PendingApprovals | components/documents/documents-dashboard.tsx:373-374 | exactly the pending documents, in order |
| DocumentsDashboard.PendingIsStatusFilter | components/documents/documents-dashboard.tsx:111-118 | the pending list is the main filter with the status set to pending (the pending list of lines 373-374) |
| OfflineStatus.PluralMinutes | components/offline/offline-status.tsx:56 | one elapsed minute reads "1 minute ago", two read "2 minutes ago" |
| OfflineStatus.PluralHours | components/offline/offline-status.tsx:55 | one elapsed hour reads "1 hour ago", two read "2 hours ago" |
| OfflineStatus.PluralDays | components/offline/offline-status.tsx:54 | one elapsed day reads "1 day ago", two read "2 days ago" |
| OfflineStatus.FormatLastSync | components/offline/offline-status.tsx:45-58 | no timestamp is "Never"; otherwise days, hours or minutes ago by the 1-day, 1-hour and 1-minute thresholds, or "Just now" |
| OfflineStatus.FloorsCompose | components/offline/offline-status.tsx:50-52 | flooring minutes to hours and hours to days equals flooring the milliseconds directly |
| OfflineStatus.UnderAMinuteIsJustNow | components/offline/offline-status.tsx:56-57 | less than a minute, or a time in the future, is "Just now" |
| OfflineStatus.OneDayAgo | components/offline/offline-status.tsx:54 | between one and two days reads "1 day ago" |
| OfflineStatus.OfflineStatusPanel.constructor | components/offline/offline-status.tsx:10-14 | the panel's initial state |
| OfflineStatus.OfflineStatusPanel.UpdateOnlineStatus | components/offline/offline-status.tsx:17-20 | the online flag and the queue length are refreshed |
| OfflineStatus.OfflineStatusPanel.HandleManualSync | components/offline/offline-status.tsx:60-63 | offline does nothing; online starts syncing and schedules the completion |
| OfflineStatus.OfflineStatusPanel.ManualSyncDone | components/offline/offline-status.tsx:65-69 | the completion stops syncing, zeroes the queue length and records the time |
| Middleware.Decide | middleware.ts:4-22 | every redirect goes to /dashboard, and a cookie set is always the onboarding cookie |
| Middleware.Handle | middleware.ts:24-26 | paths outside the matcher pass through |
| Middleware.OnboardingRedirect | middleware.ts:9-13 | the cookie is set exactly on /dashboard?onboarded=1: onboarded=true, path /, one year |
| Middleware.LandingSkipped | middleware.ts:17-21 | / redirects to /dashboard exactly when the onboarded cookie is "true" |
| Middleware.DashboardWithoutFlagPasses | middleware.ts:9-21 | /dashboard without the flag passes through |
| Middleware.NoRedirectLoop | middleware.ts:9-21 | following any redirect reaches a request that passes through |
| JsNumbers.ParseFloatDigits | components/payroll/employee-form.tsx:105 | `parseFloat` of plain digits is their value |
| JsNumbers.ParseFloatNatToString | components/inventory/product-form.tsx:375 | `parseFloat` reads back a printed whole number |
| JsNumbers.ParseFloatNonNumeric | components/inventory/product-form.tsx:69-70 | text whose first non-space character is not a sign, a digit or a point, and which does not start with `Infinity`, is NaN, so `\|\| 0` gives 0 |
| JsNumbers.ToNumberDigits | components/forms/tax-filing-form.tsx:114 | `Number` of plain digits is their value |
| JsNumbers.ToNumberMinusDigits | components/forms/tax-filing-form.tsx:114 | `Number` of a minus sign and digits is the negative value |
| JsNumbers.ToNumberNatToString | components/forms/tax-filing-form.tsx:114 | `Number` reads back a printed whole number |
| Common.ToLower | components/tables/compliance-data-table.tsx:154 | `toLowerCase` keeps the length and lower-cases each letter |
| Common.ContainsIgnoreCaseEmpty | components/tables/compliance-data-table.tsx:154 | the empty search matches every text |
| Common.Trim | components/documents/document-form.tsx:72 | `trim` leaves no white space at either end and removes only white space |
| Common.TrimEmptyIffAllSpace | components/documents/document-form.tsx:72 | a trimmed text is empty exactly when the text is all white space |
| Common.LtIrreflexive | components/tables/compliance-data-table.tsx:172-173 | string `<` is irreflexive |
| Common.LtAsymmetric | components/tables/compliance-data-table.tsx:172-173 | string `<` is asymmetric |
| Common.LtTransitive | components/tables/compliance-data-table.tsx:172-173 | string `<` is transitive |
| Common.LtTotal | components/forms/tax-filing-form.tsx:108 | distinct strings are ordered one way or the other |
| Common.NatToString | components/notifications/notification-center.tsx:277 | a whole number prints as decimal digits, one digit exactly below 10 |

## Left out

- IndexedDB, `fetch`, `window` event listeners and `navigator.onLine` are not modelled as such. The database is the `Disk` value, server answers are a `Reply` sequence, and the online flag and events are parameters and methods.
- Asynchronous interleaving is not modelled. Each async method runs to completion before the next begins. So an `online` event arriving during a pass, or items pushed while `processSyncQueue` is awaiting, are not modelled.
- `Date.now()` and the random parts of generated ids (sync items, toasts, entries, components) are parameters. The model does not check that ids are unique; operations that need it require it.
- `OfflineSync.OfflineSyncManager.SaveOfflineData`: a record without an id makes `put` throw. The model keeps the puts before it and writes no `lastSync`. Whether IndexedDB then commits or aborts those earlier puts is not modelled.
- `OfflineSync.OfflineSyncManager.SaveOfflineData`: records written into the `syncQueue` or `metadata` store are not kept, because the model's queue store holds queue items only and its metadata only `lastSync`. The contract leaves the contents of those stores after such a write open, and also `lastSync` after a failed write into `metadata`.
- `OfflineSync.OfflineSyncManager.GetOfflineData`: the `metadata` store is listed as its `lastSync` time only; other entries, which only a `saveOfflineData` into that store could write, are not modelled.
- `OfflineStorage.OfflineStorageHook.Load`: on a hook over the `syncQueue` or `metadata` store the source puts the listed queue items or metadata entries into the hook's state. The model's state holds records, so Load's contract then says nothing about the data.
- `OfflineSync.OfflineSyncManager.LoadSyncQueue`: the `request.result || []` fallback is not modelled, since `getAll` always yields an array.
- `isOffline` (lib/offline-sync.ts:236-238) is not modelled as a separate member; it is the negated `isOnline` field.
- Record data is a map of string fields with an optional id. JSON encoding of request bodies and non-string ids are not modelled.
- Locale and `Intl` formatting (`formatCurrency`, `toLocaleString`, `toLocaleDateString`, `formatFileSize`) is not modelled. A locale date is a parameter of `NotificationCenter.FormatTimestamp`.
- Parsing and subtracting `Date` values is not modelled. Elapsed times and the day span of the AI assistant are integer parameters; an invalid date is `None`.
- `TransactionForm.IsBalanced`: `TotalDebits`, `TotalCredits`, `IsBalanced`, `Difference`, `DifferenceShownIff` and `InitialNotBalanced` add and compare exact reals. The source adds binary floating-point numbers and compares the sums with `===` (transaction-form.tsx:71-73), which gates Save (line 99) and the difference line (line 259). With debits 0.1 and 0.2 against a credit of 0.3 the source sums 0.30000000000000004, so it finds the entry unbalanced, keeps Save disabled and shows "Difference: ₦0" (the formatter at transaction-form.tsx:75-79 sets no minimum fraction digits); the model finds it balanced. The sums of `EmployeeForm` (`Allowances`, `Deductions`, `SumComponents`, `CalculateNetSalary`) and of `ProductForm` (`EstimatedValue`, `Margin`) are exact reals in the same way.
- `AiFormAssistant.EstimateAmount`: states the VAT/PAYE estimate on exact reals; floating-point rounding and `toString` of the value are not modelled.
- Suggestion titles, messages, confidences and icons are not modelled, because they are display text. The `categoryMap` lookup is limited to its five own keys; inherited object keys such as `constructor` are not modelled.
- The 1000 ms analysis delay of the AI assistant, the 100 ms progress timer of the tax form and the 2000 ms timer of the offline panel are not modelled as timers. Each is one step (the panel's is split into `HandleManualSync` and `ManualSyncDone`).
- The `await` delays in the document form's `handleUpload` are not modelled. The `ghost` list `shown` records the progress values in order.
- The simulated upload progress of the document upload form (random increments on an interval, then completion after 3 s, lines 91-112) is not modelled, because it is driven by timers and `Math.random`.
- Object URLs for previews are not modelled. A preview is a flag, and a browser `File` is a value with an identity field.
- `parseInt(...) || 0` for the lead score and the stock inputs is not modelled. The values are taken as integers after that conversion.
- `localStorage` saving of the tax draft and the saving flags are not modelled.
- `TaxFilingForm.ValidateForm`: evaluates each check's condition before its push; the source evaluates them in sequence, which gives the same list.
- `Common.ToLower`: lower-cases ASCII letters only; Unicode case mapping is not modelled.
- `JsNumbers.ParseFloatDigits`: the number grammar is unsigned or signed decimals with an optional fraction. Exponents, `Infinity`, hexadecimal literals and binary rounding are not modelled.
- `JsNumbers.ParseFloatNonNumeric`: the model reads text starting with `Infinity` as NaN, where `parseFloat` gives Infinity and `|| 0` keeps it, so the lemma requires that the text not start with `Infinity`.
- Strings are sequences of characters; UTF-16 code units and surrogate pairs are not modelled.
- `ComplianceTable.SortBy`: modelled as a stable insertion sort on a sequence. The source sorts an array in place with `Array.prototype.sort`, which is stable in current engines. Sort keys are limited to the text columns.
- The date-range filter of the compliance table is not modelled, because `filteredAndSortedRecords` never reads it.
- The status and priority colour helpers (`getStatusColor`, `getStatusIcon`, `getFileIcon` and similar) are not modelled, because they are display lookups.
- The mock data sets of the dashboards are not modelled; the functions work on any list.
- `Toasts.AddToast`: a caller that passes `duration: undefined` explicitly overrides the default in the source; the model's `None` always takes the default.
- `ProductForm.EstimatedValue`: states only that the value is zero without a price or stock and positive for positive ones, not that it equals the product of total stock and price.
- Rendering, routing pages and the other components of the repository are not modelled.

## Findings

| source | as written | input that shows it | evidently intended | confidence | as-written member | corrected member |
|---|---|---|---|---|---|---|
| lib/offline-sync.ts:27-31 | the constructor calls `loadSyncQueue` right after starting `initDB`, before the database is open, and `loadSyncQueue` returns when `db` is null (line 81) | a reload with items persisted in the queue store | the persisted queue is loaded once the database is open | high (not executed) | OfflineSync.RestartAsWritten | OfflineSync.RestartWithReload |
| components/forms/tax-filing-form.tsx:83-91 | the timer's `calculateProgress` reads the `formData` of the render before the edit | fill filing type, period and both dates, then enter the revenue in a single change event (a one-digit revenue or a paste; a revenue typed key by key catches up on its second keystroke): five of seven fields, yet 57% shows and submit stays disabled | progress follows the edited data | high (not executed) | TaxFilingForm.StaleProgressBlocksSubmit | TaxFilingForm.SubmitTracksFilledFields |
| components/tables/compliance-data-table.tsx:196-198 | select-all, and the header checkbox at line 466, compare the selection's length with the page's length | one row selected on page 2 while viewing a one-row page: the header shows checked, and clicking it clears the selection | compare the page's ids with the selection | medium (not executed) | ComplianceTable.SelectAllComparesLengths | ComplianceTable.SelectAllFixedFlips |
| components/tables/compliance-data-table.tsx:640-649 | with no matching rows, `totalPages` (line 182) is 0, so Next and Last are enabled on page 1 and set page 0 | a search that matches nothing, then Next | stay on page 1 | medium (not executed) | ComplianceTable.ZeroPagesReachPageZero | ComplianceTable.ClampedNavigation |
