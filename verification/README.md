# Verified model of the gateway's price synchronisation and channel state

This project models, in Dafny, the parts of an AI gateway whose behaviour is
hardest to see from one function: the scheduled upstream price sync, the
in-memory sliding-window rate limiter, the administration of multi-key
channels, the reconciliation of channel model lists, the choice of prices from
a public catalogue, the resolution of model aliases for automatic tasks, and the
Ogg page scan that measures Opus files. `dafny verify dfyconfig.toml` checks
the whole project.

## How the sync is modelled

A pricing configuration is a table of model values per pricing field; a model's
*column* is everything the tables say about it. The stages follow the source:

- `TierExpr` compiles published price steps into a billing expression. The
  expression is a token list; an independent recursive-descent parser and
  evaluator say what the tokens mean.
- `PricingItems` turns a published list of items into columns and a list of
  names that must be blocked.
- `Quotes` is the durable table of quotes per source and model. A ghost history
  of fetches says what each counter means.
- `PriceMerge` merges comparable contracts in price space and converts back to
  ratios. `PatchBuilder` decides each model's target contract and the
  set/delete patch; `Patches` gives patches their meaning.
- `SyncStates` writes the per-model states. `SyncRun` is the run itself: the
  fetch loop over the sources, the proposal, the two-run gate and the final
  write, with a log of every run. `SyncProgress` says what one run leaves for
  the next.

Loops and objects of the source are methods and classes here, each proved
against a specification function; the theorems are about those functions and
about whole runs.

## What the code does that a reader might not expect

Each of these is proved; where a promise fails, the exact condition under which it
holds is proved with it, and an input at which it fails.

- Auto-sync of a channel's model list settles after one application if and only
  if no pending name contains a comma, the separator of the stored list
  (`ModelLists.SyncConvergesExactly`, `ModelLists.CommaStaysPending`).
- Applying pending model changes in batches leaves the stored field reading as one
  request would if and only if every piece of every requested addition is there
  anyway, or comes with a name whose first decision is to add it and is not
  asked to be removed for the first time afterwards
  (`ModelBatches.BatchesAgreeExactly`). Without commas in those additions that is:
  none was ignored before it was added (`ModelBatches.DetectedBatchesAgree`,
  `ModelBatches.IgnoreThenAddDiffers`). With a comma it fails although nothing is
  ignored: the field is read again between batches, so a later removal reaches a
  piece of an added name (`ModelBatches.CommaBatchesDiffer`).
- Deleting keys of a multi-key channel rewrites one text that is read again. The
  deletion is what it is on the list of keys if and only if the keys left, once
  joined, are no JSON array, none spans lines and neither end is blank
  (`MultiKeyStore.StepExactly`, `MultiKeyStore.BlankKeyShifts`,
  `MultiKeyStore.JsonElementBreaks`).
- `delete_disabled_keys` is a filter if and only if, besides, a key is left and
  nothing is left over behind enabled keys; when every key is automatically
  disabled the empty key text is not written, so all keys stay and are enabled
  again (`MultiKeyStore.DeleteDisabledExactly`, `MultiKey.DeleteDisabledRevives`).
- An automatic status change leaves a disable time or reason behind an enabled
  key exactly when it re-enables a key that has one
  (`MultiKey.AutoUpdateHidesExactly`, `MultiKey.AutoEnableHides`).
- Tiered contracts that agree only within the tolerance are applied and still
  recorded as a conflict (`SyncStates.IncompatibleExactly`,
  `SyncStates.NearTieredFlagged`).
- A conflict is stored when the run that found it is applied; a run whose patch
  is not yet confirmed stores nothing but stale marks (`SyncRun.NoSilentConflict`,
  `SyncRun.PricingSync.RunTask`).
- An applied update rewrites the provenance of a general model it deletes, so the
  model is no longer lost; if the remaining sources still price it, the next
  update sets it again. Only pinned (and nameless) models stay lost and keep
  being proposed for deletion (`SyncProgress.LostAfter`,
  `SyncProgress.DeletedThenPriced`, `SyncProgress.LostModelReturns`). The sync
  comes to rest exactly when neither kind of model is lost
  (`SyncProgress.NextProposalExactly`, `SyncProgress.RunTwice`).
- The selection among catalogue providers stays within one tolerance of the
  cheapest only because the providers are scanned in sorted order
  (`ModelsDev.SelectsCheapest`, `ModelsDev.UnsortedScanDrifts`).

## Conventions

- Floating-point numbers are reals; the 1e-9 equality tolerance is kept.
- Decoded JSON values are numbers or strings.
- The candidate hash is its canonical content: JSON encoding and SHA-256 are
  taken as injective.
- An option key stands one-to-one for a pricing field.
- A database transaction is one atomic step. A concurrent configuration change
  or a storage failure is an outcome of the run's environment.
- The clock, channel status, fetched data, cancellation, regular-expression
  matching, the smoke test of an expression, its textual rendering, group keys
  and price-contract lookup are parameters.
- The order in which a Go map is ranged over is arbitrary.
- Source ids are distinct.
- Reading a key text as a JSON array is a parameter, of which only one thing is
  used: the raw elements are pieces of the text with brackets around and commas
  between them. `MultiKeyStore` starts from a channel whose size and map entries
  fit the keys that are read.
- A read from the audio file fills its buffer when enough bytes remain.

## Model

| member | source | states |
|---|---|---|
| PricingData.AllModelsColumns | controller/pricing_sync_task.go:894-903 | a name is collected for patching exactly when some source declares some field for it |
| PriceMerge.ComputeAggregate | controller/pricing_sync_task.go:829-852 | the strategy loop returns the greatest, the least or the mean of the values |
| PriceMerge.AggregateBounds | controller/pricing_sync_task.go:829-852 | whatever the strategy, the aggregate lies between the extremes; the mean times the count is the sum, the others are one of the values |
| PriceMerge.ResolveComparable | controller/pricing_sync_task.go:757-884 | the whole numeric merge, loops included, computes the merge of the contracts of that category, or fails |
| PriceMerge.CheckComparable | controller/pricing_sync_task.go:786-799 | accepts exactly the contract lists in which every source declares the same lanes and, for ratios, both base lanes |
| PriceMerge.FromPricesCharges | controller/pricing_sync_task.go:853-884 | converting aggregated prices back to ratios loses nothing: each ratio charges the price it came from, audio output included |
| PriceMerge.MergePrices | controller/pricing_sync_task.go:757-884 | the merged contract has exactly the sources' lanes, and charges in each the chosen aggregate of what the sources charge there |
| PriceMerge.MergeNeverUndercuts | controller/pricing_sync_task.go:757-884 | "highest" undercuts no source in any lane, "lowest" exceeds none, and every strategy stays between the extremes |
| PriceMerge.MergeOrderIndependent | controller/pricing_sync_task.go:757-884 | the merge does not depend on the order of the sources |
| PriceMerge.MergeSingle | controller/pricing_sync_task.go:757-884 | a lone contract resolves to itself or to nothing: a fixed price whenever it is a valid number, a ratio contract exactly when its needed divisors are present and non-zero |
| Patches.ApplyLookup | model/option.go:1346-1410 | applying a patch acts on each model and field on its own: put, drop or keep |
| Patches.PatchesDisjoint | controller/pricing_sync_task.go:994-1027 | accumulated over the models, no name is both set and deleted in one option and deletes are listed once, in order |
| Patches.MergeStep | controller/pricing_sync_task.go:1016-1029 | adding one model's own edits to the patches gives the patches of one more model |
| PatchBuilder.BuildPatches | controller/pricing_sync_task.go:893-1032 | the builder's loops return the patch, the skipped models and the applied count of its per-model plan |
| PatchBuilder.PlanModel | controller/pricing_sync_task.go:908-990 | selection of sources, category check, tiered comparison and numeric merge yield the planned contract, or a skip |
| PatchBuilder.CompareTiered | controller/pricing_sync_task.go:970-990 | tiered contracts merge exactly when each field is declared by none or by all with agreeing values |
| PatchBuilder.BuildEdits | controller/pricing_sync_task.go:908-1030 | what the built patch does to one model and field is that model's own edit, for every name, mentioned or not |
| PatchBuilder.BuildSkips | controller/pricing_sync_task.go:908-1015 | the skipped list is exactly the mentioned models without a plan |
| PatchBuilder.BuildDisjoint | controller/pricing_sync_task.go:994-1027 | in no option is a model both set and deleted |
| PatchBuilder.ExactReplacement | controller/pricing_sync_task.go:908-1030 | all or nothing: a planned model ends with exactly its contract's fields within tolerance, every other model is untouched in every field |
| PatchBuilder.PlanCategory | controller/pricing_sync_task.go:908-1030 | a replaced column bills in the category its sources agree on |
| PatchBuilder.BuildFixpoint | controller/pricing_sync_task.go:893-1032 | applying the patch and building again from the same sources gives no patch, no applied model and the same skipped list, despite the tolerance |
| PatchBuilder.NonInterference | controller/pricing_sync_task.go:908-1028 | a model's patch and skip depend only on its own local column, source columns and preference |
| PatchBuilder.PinIsolation | controller/pricing_sync_task.go:915-926 | for a pinned model, changing any other source's data never changes its patch |
| Quotes.QuoteDescribesHistory | controller/pricing_sync_task.go:560-610 | after any history of fetches a quote's count is the length of the latest run of the same contract since the last absence, unsupported fetches not counting, and its missing count the number of latest absences |
| Quotes.MissingExcludesConfirmed | controller/pricing_sync_task.go:572-610 | a quote with absences has no confirmation, so no model is confirmed and missing at once |
| Quotes.ConfirmedTwice | controller/pricing_sync_task.go:638-662 | a confirmed quote was sighted twice in a row with that contract and no absence between |
| Quotes.QuoteStore.Confirm | controller/pricing_sync_task.go:536-632 | one fetch moves every quote of its source by one observation and no quote of another source; the result is exactly the confirmed contracts of the fetch |
| Quotes.QuoteStore.SaveValid | controller/pricing_sync_task.go:560-589 | every valid model of the fetch is observed once, and the confirmed ones are reported |
| Quotes.QuoteStore.MarkAbsent | controller/pricing_sync_task.go:590-610 | every existing quote of the source that was not fetched validly is observed as unsupported or absent |
| Quotes.RecordsStep | controller/pricing_sync_task.go:536-632 | the table keeps describing all fetches after one more |
| Quotes.DropStep | model/pricing_sync.go:544-546 | deleting a removed source's quotes makes the table describe what is fetched from then on |
| Quotes.SnapshotTwiceSighted | controller/pricing_sync_task.go:638-662 | whatever the confirmed snapshot holds was sighted twice in a row by that source since it was last removed, and is not missing |
| Quotes.ThirdAnswerSettled | controller/pricing_sync_task.go:560-662 | an answer given a third time in a row changes neither the confirmed contract nor whether the model counts as missing |
| Quotes.TablesSettled | controller/pricing_sync_task.go:536-662 | fetches that repeat the last two answers of their sources leave every quote standing where it stood |
| SyncStates.MarkSourcesStale | model/pricing_sync.go:559-584 | exactly the non-manual models that rely on a stale source, by pin or by provenance, become stale |
| SyncStates.MarkStaleKeeps | model/pricing_sync.go:559-584 | marking changes no pin and no lost model, so the proposal does not depend on it |
| SyncStates.RemoveUnavailable | controller/pricing_sync_task.go:1087-1097 | lost models are taken out of every set and appended to every delete list, once each |
| SyncStates.RemoveAllEdits | controller/pricing_sync_task.go:1087-1097 | a lost model is deleted in every option whatever the builder wanted; other models keep their edits |
| SyncStates.AppliedStates | controller/pricing_sync_task.go:1099-1161 | one state for each patched model and each known non-manual model some source exposes, and no others; it says lost, stale, disputed or ready in that order |
| SyncStates.IncompatibleStates | controller/pricing_sync_task.go:1163-1241 | one state per mentioned model whose exposing sources cannot be merged, and no others |
| SyncStates.CheckIncompatible | controller/pricing_sync_task.go:1186-1224 | the loops over the quoting sources and their recorded contracts decide incompatibility, and record the last contract of each source |
| SyncStates.WriteStates | controller/pricing_sync_task.go:1379-1392 | the written list holds at most one state per model, an incompatibility replacing the applied state |
| SyncStates.IncompatibleExactly | controller/pricing_sync_task.go:1163-1241 | a non-manual model gets an incompatible state exactly when a considered source exposes it and it has no plan, or its tiered contracts are not identical |
| SyncStates.NearTieredFlagged | controller/pricing_sync_task.go:970-990 | tiered contracts that agree within the tolerance without being identical are planned and flagged all the same |
| SyncStates.NearTieredExample | controller/pricing_sync_task.go:1214-1221 | such a pair of sources exists |
| SyncStates.ContestedState | controller/pricing_sync_task.go:893-1241 | the state to be written for an exposed non-manual model that the builder skipped is conflict or stale |
| SyncStates.ManualUntouched | controller/pricing_sync_task.go:893-1241 | a manual model gets neither patch nor state |
| SyncStates.PreferenceWritten | controller/pricing_sync_task.go:1099-1241 | a state to be written carries the model's own stored preference, and a model without one becomes general |
| SyncRun.LandingKeepsPins | controller/pricing_sync_task.go:1379-1430 | after an applied run every known model has the preference it had, and new models are general |
| SyncRun.NoSilentConflict | controller/pricing_sync_task.go:1379-1430 | after an applied run every exposed non-manual model with a non-blank name that was skipped is stored as conflict or stale |
| SyncRun.CandidateOf | controller/pricing_sync_task.go:433-457 | sorting and de-duplicating computes the canonical candidate |
| SyncRun.DedupeSorted | controller/pricing_sync_task.go:438-446 | dropping neighbouring duplicates of a sorted list leaves its members in ascending order |
| SyncRun.CanonicalExactly | controller/pricing_sync_task.go:433-461 | two proposals have the same candidate exactly when their sources agree up to order and their patches up to order and repetition of deletes |
| SyncRun.CanonicalEffect | controller/pricing_sync_task.go:433-461 | proposals with the same candidate change every configuration alike |
| SyncRun.HonestRunsAreGated | controller/pricing_sync_task.go:1405-1430 | over every sequence of runs a non-empty patch is applied only in a run without failed fetch whose predecessor succeeded with the same candidate |
| SyncRun.GateRepeats | controller/system_task_handlers.go:226-247 | an applied patch was proposed, to the same effect and from the same sources, by the run just before |
| SyncRun.SourcedValues | controller/pricing_sync_task.go:1334-1430 | every value a proposal sets is a field of what the speaking sources' contracts resolve to, each source having sighted its own contract twice and only the pin speaking for a pinned model; it never belongs to a lost model |
| SyncRun.CollectUpstreams | controller/pricing_sync_task.go:1337-1353 | the proposal is built from the confirmed snapshots of exactly the active sources that have one, in configured order |
| SyncRun.PricingSync.FetchOne | controller/pricing_sync_task.go:1275-1327 | one source's turn: whether it becomes active or stale, fails, is stamped and records a fetch depends on that source alone; a source that interrupts the run is stamped unless the stamp itself failed |
| SyncRun.PricingSync.FetchDue | controller/pricing_sync_task.go:1275-1327 | the loop completes exactly when no due source interrupts it, and then sources, fetches, failures, active and stale ids are those of each source's own turn; otherwise the sources before the first interrupting one had their turns and no later one did |
| SyncRun.PricingSync.Propose | controller/pricing_sync_task.go:1337-1374 | the proposal's context is that of the active sources and its patch is sound: twice-sighted contracts, deletions of lost models only |
| SyncRun.PricingSync.Settle | controller/pricing_sync_task.go:1379-1430 | a patch is written exactly when the previous candidate equals its own, an empty patch exactly when there are states to write, and then exactly the patch and the final states are |
| SyncRun.PricingSync.RunOnce | controller/pricing_sync_task.go:1243-1446 | a proposal exists exactly when nothing failed before it, the reads after the stale marks included; it is applied exactly when it is a confirmed patch, or only states, and can be written; otherwise prices stay and exactly the stale marks are written, if the loop completed and they could be |
| SyncRun.PricingSync.RunTask | controller/system_task_handlers.go:226-247 | every run, whatever an administrator changed before it, keeps the log gated, every logged proposal sound for the fetches seen by then and every pin; applied, it stores every contested model as conflict or stale, and not applied it changes no state but by stale marks |
| SyncRun.PricingSync.Configure | model/pricing_sync.go:148-315 | changing sources, strategy, prices or states between runs keeps the history valid |
| SyncRun.PricingSync.RemoveSources | model/pricing_sync.go:474-557 | removing sources takes exactly their quotes and exactly the models pinned to them or priced from them, in every option, and keeps the history valid |
| SyncRun.PricingSync.SaveStates | model/pricing_sync.go:743-753 | the listed states replace the stored ones by name, blank names skipped, others untouched |
| SyncProgress.LostAfter | controller/pricing_sync_task.go:1047-1161 | after an applied update a model is lost, by the same quotes, exactly when it was lost before and is pinned or nameless |
| SyncProgress.NextEdit | controller/pricing_sync_task.go:893-1097 | from the same quotes the next builder run sets every field of every formerly lost model that has a plan, and edits nothing else |
| SyncProgress.NextProposalExactly | controller/pricing_sync_task.go:893-1161 | the proposal that follows an applied update from the same quotes is empty exactly when no lost model was pinned, nameless or still priced by a remaining source |
| SyncProgress.DeletedThenPriced | controller/pricing_sync_task.go:1087-1161 | a lost model that remaining sources still price is deleted everywhere and set again, in full, by the next update |
| SyncProgress.LostModelReturns | controller/pricing_sync_task.go:1334-1374 | such a model exists: in a run over two active sources of which one has dropped it, it is lost and has a plan |
| SyncProgress.SameCandidate | controller/pricing_sync_task.go:433-461 | proposals from the same inputs and lost models are one candidate with one effect, whatever order the deletes came in |
| SyncProgress.SameContext | controller/pricing_sync_task.go:1337-1374 | what a run works from depends on where the quotes stand, not on how often they were confirmed or when |
| SyncProgress.ProposedAgain | controller/pricing_sync_task.go:1334-1430 | a run that applied nothing leaves the next run, if the quotes stand the same, the same candidate |
| SyncProgress.RunTwice | controller/system_task_handlers.go:226-247 | of two clean runs, the second with the same active sources and told nothing new, each source it fetches repeating its last two answers: a patch proposed and not applied by the first is applied by the second if it can write; after an applied first run the second proposes nothing exactly when no lost model was pinned, nameless or still priced |
| TierExpr.CompileSteps | controller/pricing_sync_task.go:297-337 | the compiler accepts exactly the items whose bounds, order and prices are valid, and emits the expression of their steps |
| TierExpr.CompileParts | controller/pricing_sync_task.go:308-336 | the step loop rejects exactly the ill-ordered or invalid lists |
| TierExpr.TierMeaning | controller/pricing_sync_task.go:297-403 | the emitted tokens parse, and on every usage charge the first step whose input and output bounds hold, the last catching everything beyond |
| TierExpr.BaseMeaning | controller/pricing_sync_task.go:303-307 | an item without steps but with explicit cache prices compiles to its single base tier |
| TierExpr.ParseNested | controller/pricing_sync_task.go:318-336 | the flat concatenation of parts reads back as the right-nested conditional |
| TierExpr.SelectedExists | controller/pricing_sync_task.go:308-336 | every usage selects exactly one step |
| TierExpr.StepReachable | controller/pricing_sync_task.go:308-336 | no accepted step is dead: some non-negative usage selects it |
| TierExpr.NeverNegative | controller/pricing_sync_task.go:297-403 | the compiled expression of an accepted item parses and charges no negative amount for a non-negative usage |
| PricingItems.ItemsToSyncData | controller/pricing_sync_task.go:175-267 | the item loop yields, per name, the column of its only item or a block, whatever was stored on the way |
| PricingItems.NamesPartitioned | controller/pricing_sync_task.go:175-267 | every non-blank name is either blocked or priced under exactly one category, and a repeated name is blocked |
| PricingItems.ItemColumnCategory | controller/pricing_sync_task.go:202-261 | an item's column bills in one category and holds no base field of another |
| PricingItems.ItemOrderIrrelevant | controller/pricing_sync_task.go:175-267 | permuting the items changes no name's outcome |
| RateLimiter.InMemoryRateLimiter.Request | common/rate-limit.go:64-82 | the call performs one step of the limiter's machine and answers as it does |
| RateLimiter.InMemoryRateLimiter.ReserveWithRetention | common/rate-limit.go:99-130 | the prune loop, the backward count and the 64-bit counter perform one reserve step |
| RateLimiter.InMemoryRateLimiter.ReleaseReservation | common/rate-limit.go:132-158 | the backward search removes the last request with the number, and the key when nothing is left |
| RateLimiter.InMemoryRateLimiter.DeleteExpiredItems | common/rate-limit.go:45-58 | the sweep drops exactly the keys whose newest request has expired |
| RateLimiter.TailCountsAll | common/rate-limit.go:113-116 | because queues stay in time order, the backward scan counts every young request |
| RateLimiter.PrunedCounts | common/rate-limit.go:64-117 | after pruning, both ways of counting see what the full history holds in the window |
| RateLimiter.StepRefines | common/rate-limit.go:45-158 | every step of the limiter answers as the machine that forgets nothing, and stays related to it |
| RateLimiter.AnswersMatchFullHistory | common/rate-limit.go:45-158 | after any run with one retention per key, windows and limits varying, the next answer counts all accepted, unreleased requests |
| RateLimiter.SweepsInvisible | common/rate-limit.go:45-58 | removing every sweep from a run changes no later answer |
| RateLimiter.AcceptedIsHistory | common/rate-limit.go:45-158 | the requests the limiter itself accepted and that were not released since are exactly the full history |
| RateLimiter.WindowSafety | common/rate-limit.go:64-130 | with a fixed limit and window, no window-long interval holds more than the limit of requests the limiter accepted and that were not released |
| RateLimiter.GrantsPerWindow | common/rate-limit.go:64-130 | where nothing is released, the limiter says yes at most limit times in any window-long interval |
| RateLimiter.ReservationsDistinct | common/rate-limit.go:121-130 | reservation numbers in a key's history ascend, until the 64-bit counter wraps |
| RateLimiter.ReleaseIsExact | common/rate-limit.go:132-158 | releasing a number removes that one request and keeps the order of the rest |
| Separated.RoundTripExactly | model/channel.go:241-243 | a list joined by a separator, trimmed of it and split again is the same list exactly when no element contains the separator and neither end is blank |
| MultiKey.MultiKeyChannel.Update | model/channel.go:765-805 | saving keeps the stored text when the new one is empty, counts the keys again and drops the status entries beyond |
| MultiKey.MultiKeyChannel.DisableKey | controller/channel.go:1605-1646 | one stored step of disable_key, whatever is stored |
| MultiKey.MultiKeyChannel.EnableKey | controller/channel.go:1648-1688 | one stored step of enable_key, whatever is stored |
| MultiKey.MultiKeyChannel.EnableAllKeys | controller/channel.go:1690-1712 | one stored step of enable_all_keys, whatever is stored |
| MultiKey.MultiKeyChannel.DisableAllKeys | controller/channel.go:1714-1759 | the counting loop performs one stored step of disable_all_keys, failing when no counted key is enabled |
| MultiKey.MultiKeyChannel.DeleteKey | controller/channel.go:1761-1839 | the re-indexing loop and the joined text perform one stored step of delete_key: the sparse maps are those of the records that are left |
| MultiKey.MultiKeyChannel.DeleteDisabledKeys | controller/channel.go:1841-1908 | the filtering loop and the joined text perform one stored step of delete_disabled_keys |
| MultiKey.MultiKeyChannel.UpdateKeyStatus | model/channel.go:897-947 | an automatic status change acts on the entries of the first key that matches |
| MultiKey.MapsOfRecords | controller/channel.go:1777-1809 | records split into a key list and sparse maps are found again, with every entry inside the list |
| MultiKeyStore.ReadableExactly | model/channel.go:222-244 | joined keys are read back as the same keys exactly when the text is no JSON array, neither end is blank and no key spans lines |
| MultiKeyStore.StepExactly | controller/channel.go:1605-1908 | on a channel whose size and maps fit its keys, every action answers as the list of records does, and does the same to what is stored exactly when the keys it leaves are readable; clearing the maps of an empty JSON array miscounts |
| MultiKeyStore.DeleteDisabledExactly | controller/channel.go:1841-1908 | deleting disabled keys leaves exactly the keys that are not auto-disabled, in the stored text, exactly when there is nothing to delete, or a readable key list is left and nothing hides behind enabled keys |
| MultiKeyStore.RunExactly | controller/channel.go:1605-1908 | over a whole run what is stored follows the list of records exactly when every action leaves readable keys, judged on the list alone |
| MultiKeyStore.KeysNeverLost | controller/channel.go:1605-1908 | such a run never empties the stored channel and invents and duplicates no key |
| MultiKeyStore.PlainKeysFollow | controller/channel.go:1605-1908 | if no key is blank, spans lines or begins like a JSON array, every sequence of actions follows the list of records |
| MultiKeyStore.BlankKeyShifts | model/channel.go:783-805 | deleting the key before a blank one loses the blank key too and gives its entries to the last; the maps still fit exactly when the last key had no time and no reason of its own |
| MultiKeyStore.BlankKeyRun | controller/channel.go:1761-1839 | on a channel with a blank key in the middle, two automatic disables and a deletion leave the last key with the blank key's time and reason |
| MultiKeyStore.BlankKeyStored | model/channel.go:222-244 | a text with an empty line between two plain keys is read as such a channel |
| MultiKeyStore.JsonElementBreaks | model/channel.go:229-243 | deleting from a JSON array can turn an element that spans lines into several keys |
| MultiKey.DeleteDisabledFilters | controller/channel.go:1841-1908 | on the list of records, deleting disabled keys is filtering out the auto-disabled ones exactly when one other key is left and nothing hides behind enabled keys |
| MultiKey.DeleteDisabledRevives | model/channel.go:765-825 | when all keys are auto-disabled they all stay and become enabled |
| MultiKey.ActKeepsNoHidden | controller/channel.go:1605-1908 | no administrative action leaves a time or reason behind an enabled key |
| MultiKey.AutoUpdateHidesExactly | model/channel.go:897-947 | an automatic status change leaves none either, except exactly when it re-enables a key whose time or reason is recorded |
| MultiKey.AutoEnableHides | model/channel.go:919-921 | re-enabling an auto-disabled key leaves its time and reason behind |
| OggScan.OpusDuration | common/audio.go:196-254 | on arbitrary bytes the scan ends and its duration is the largest granule position met, or zero, at 48 kHz |
| OggScan.ReadPage | common/audio.go:228-249 | reading a header moves strictly forward, to where its segment table says the next page is |
| OggScan.LatestIsMaximum | common/audio.go:228-232 | the running value is the maximum of zero and the signed granule positions |
| OggScan.ScanFindsPages | common/audio.go:196-254 | on complete pages with junk in which no page start can be read, the scan stops at exactly the page starts |
| OggScan.EncodedPage | common/audio.go:219-249 | a page laid out by section 6 of RFC 3533 is recognised as complete and its signed granule position reads back |
| AliasChain.ResolveMapped | controller/relay.go:1105-1126 | the walk returns the name reached from the start whose mapping is absent, blank or itself, and a cycle or decoding error otherwise |
| AliasChain.EndFound | controller/relay.go:1113-1126 | whatever number of links leads to an end, that end is the answer |
| AliasChain.EndNowhere | controller/relay.go:1113-1126 | a cycle is reported exactly when no end is ever reached |
| AliasChain.ResolutionIdempotent | controller/relay.go:1105-1126 | resolving a resolved name gives it back |
| AliasChain.TopPriorities | controller/relay.go:1041-1059 | the first loop finds, per requested group, the highest priority that serves the model |
| AliasChain.CollectTop | controller/relay.go:1061-1092 | the second loop collects the contracts, resolved names and groups of exactly the top-priority abilities, failing when one has no contract or no resolution |
| AliasChain.ValidateAutoTask | controller/relay.go:1030-1103 | the check succeeds exactly when every requested group is served and all top-priority abilities share one contract and one resolved model |
| ModelLists.NormalizeNormal | controller/channel_upstream_update.go:94-99 | a normalised list is trimmed, without blanks or repetitions, and mentions the same names |
| ModelLists.MergeNames | controller/channel_upstream_update.go:101-115 | the merge loop appends the new names of the second list to the first, in order |
| ModelLists.MergeSets | controller/channel_upstream_update.go:101-115 | merging is union of the mentioned names |
| ModelLists.SubtractSets | controller/channel_upstream_update.go:117-126 | subtracting is difference |
| ModelLists.IntersectSets | controller/channel_upstream_update.go:128-137 | intersecting is intersection |
| ModelLists.StoredListReadsBack | model/channel.go:336-341 | a normal list without commas in its names reads back from its stored text |
| ModelLists.PendingSets | controller/channel_upstream_update.go:173-236 | pending additions are the upstream names that are neither local, mapped to nor ignored; pending removals the local names upstream lacks and no mapping mentions |
| ModelLists.Reconcile | controller/channel_upstream_update.go:401-412 | auto-sync computes the reconciled list; its counts account for every name added and removed |
| ModelLists.ReconciledIsSettled | controller/channel_upstream_update.go:173-236 | detecting again on the reconciled list finds nothing pending |
| ModelLists.ReconciledLength | controller/channel_upstream_update.go:401-412 | the new length is the old one plus additions minus removals |
| ModelLists.SyncConvergesExactly | controller/channel_upstream_update.go:377-423 | after storing and reading back, nothing is pending exactly when no added name contains a comma |
| ModelLists.CommaStaysPending | controller/channel_upstream_update.go:401-412 | an upstream name with a comma is pending again after it was applied |
| ModelLists.UpstreamChannel.Check | controller/channel_upstream_update.go:377-423 | a check is made when forced, never made before or made long enough ago; one that is not made or cannot fetch leaves models and findings alone; otherwise findings are recorded, or applied and cleared |
| ModelLists.UpstreamChannel.ApplyUpdates | controller/channel_upstream_update.go:847-889 | the stored models, findings and ignore rules follow the applied batch, the text being rewritten only on change |
| ModelLists.BatchPartitions | controller/channel_upstream_update.go:847-889 | every pending addition is added, ignored or still pending, and only one of these |
| ModelLists.BatchModels | controller/channel_upstream_update.go:139-144 | a batch adds its pending additions and drops its pending removals, an addition winning over a removal |
| ModelBatches.StoredReads | model/channel.go:336-341 | a stored list reads as the trimmed, non-blank pieces of its names between commas |
| ModelBatches.StoreEffect | controller/channel_upstream_update.go:847-889 | one batch on what is stored: pending names asked to be removed go, all pieces of the pending names asked to be added are there, and the pending lists shrink by what was decided |
| ModelBatches.BookReadsBack | controller/channel_upstream_update.go:847-889 | the stored text reads back as the batch's list, in order, exactly when no name added has a comma |
| ModelBatches.BatchesClosedForm | controller/channel_upstream_update.go:847-889 | after any batches, each reading the stored field and writing it again, a name is read exactly when it was there and its pending removal was never asked for, or it is a piece of a pending name whose first decision added it and its pending removal was asked for by then, or never |
| ModelBatches.BatchesAgreeExactly | controller/channel_upstream_update.go:847-889 | the stored field reads as after one combined request exactly when every piece of every requested pending addition stays or arrives in that sense |
| ModelBatches.WholeBatchesAgree | controller/channel_upstream_update.go:847-889 | if no requested pending addition has a comma, that is exactly when each is added by the first batch that decides on it |
| ModelBatches.DetectedBatchesAgree | controller/channel_upstream_update.go:173-236 | both hold of whatever detection found and stored |
| ModelBatches.StoredFollowsLists | controller/channel_upstream_update.go:847-889 | if no requested pending addition has a comma, what is stored after any batches is, in order, what the batches make of lists that are never stored |
| ModelBatches.IgnoreThenAddDiffers | controller/channel_upstream_update.go:847-889 | ignoring a name and adding it later differs, in the stored field, from doing both at once |
| ModelBatches.CommaBatchesDiffer | controller/channel_upstream_update.go:847-889 | detection finds one name with a comma to add and its first piece to remove; added and then removed, the piece is gone, at once it is there, although nothing was ignored |
| ModelsDev.SelectCandidates | controller/ratio_sync.go:869-898 | every model with a valid price gets a genuine one: non-zero if any is, and below every valid non-zero price plus the tolerance; map order does not matter |
| ModelsDev.OfferProvider | controller/ratio_sync.go:876-898 | one provider's models are each offered once to the selection, other models unaffected |
| ModelsDev.SelectsCheapest | controller/ratio_sync.go:835-847 | in ascending provider order the tolerance does not accumulate over the scan |
| ModelsDev.UnsortedScanDrifts | controller/ratio_sync.go:835-847 | in another order it does |

## Left out

- HTTP fetching, redirects, target selection, JSON decoding, logging and progress reports: decoded items and fetch outcomes are inputs.
- The configuration-version compare-and-set itself: its failure is one of the environment's outcomes.
- Time-stamps of sources other than the last attempt, and the texts of errors.
- Decoded JSON values other than numbers and strings, NaN and infinities, and IEEE rounding; in `TierExpr` also the textual form of numbers.
- The smoke test of expressions, regular expressions and the runtime billing evaluator are not part of this model.
- Conversion of a selected catalogue price to rounded ratios.
- The paged key status view, the polling index, the channel-wide status that follows the last enabled key, and how a multi-key channel is created or its text replaced.
- Notifications, cache refreshes and the batch endpoints around the model-list functions.
- Concurrency inside a step: the limiter's mutex and the database transactions are what make steps atomic.
- Overflow of time durations in the limiter.
- SyncRun.PricingSync.Configure: does not model which configurations and states the administrator interface refuses; every value is allowed, so the theorems hold for the accepted ones too.
- RateLimiter.ReservationsDistinct: stated for fewer than 2^64 - 1 calls, because the 64-bit counter then reuses numbers.
- OAuth, payment, relay retry and billing loops, other audio formats and the administrative endpoints would add members without harder properties.
