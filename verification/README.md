# The procurement notice reader, in Dafny

The procurement workspace of this repository reads lists of public notices in the browser. Reading
is a small concurrent protocol: `ProcurementDataClient` keeps one cache and at most one live request
per query context, serves cached lists while it refreshes them, prefetches neighbouring contexts
with bounded concurrency, and discards responses of requests that were aborted or superseded. A
render guard hides the rows while a context is loading, the workspace effect moves from context to
context, and a revision poll invalidates what changed on the server. Around that core sit smaller
algorithms: two response caches with least-recently-used eviction, the analysis-context editor,
Jalali date search, page tokens, the direct-referral list and the optimistic selection of a notice.

The project models this code and proves what it promises, for all inputs, all runs and every order
in which responses arrive. Nothing assumes that the network honours an abort signal.

## How it is organised

| file | what it holds |
|---|---|
| `Text.dfy` | string order, sorting, trimming, decimal text |
| `QueryContext.dfy` | contexts, cache keys, query parameters |
| `RequestCore.dfy`, `RequestSafety.dfy` | requests, cache, generations and controllers as a step system; its guarantees |
| `DataClient.dfy` | the whole client as a step system: continuations, prefetch scheduler, lifecycle outputs |
| `ClientInvariants.dfy`, `ClientCalls.dfy`, `ClientTheorems.dfy` | its invariants and what follows from them |
| `ClientProgress.dfy` | what the client brings about: times of entries, answers handed over, first in first out |
| `ProcurementDataClient.dfy` | the class itself, every method proved to take the steps of `DataClient` |
| `NoticeFetch.dfy` | the bounded retry |
| `RenderGuard.dfy`, `NoticeView.dfy`, `NoticeProgress.dfy` | the guard; the product of client, guard and workspace effect; what reaches the screen |
| `RevisionReconciliation.dfy`, `RevisionSafety.dfy` | overlapping revision checks; what whole runs of them guarantee |
| `DirectList.dfy` | the direct-referral list and its generation counter |
| `LruCache.dfy`, `ContextEditor.dfy`, `JalaliDates.dfy`, `PageTokens.dfy` | caches, editor, dates, page tokens |
| `OptimisticSelection.dfy`, `SelectionOrder.dfy`, `MarkedSelection.dfy` | optimistic selection: conservation, order, marks |

State that the source updates in place is a class; each of its methods states its whole new state as
a function of the old one (`View() == Step(old(View()))`), and the properties are proved about those
functions. Fields named `requests`, `log`, `writer`, `writtenAt`, `settled` and `outputs` are history
kept for stating properties: the promises and events that the browser holds outside the object.

## Model

| member | source | states |
|---|---|---|
| QueryContext.KeyEqualIffSameQuestion | app/procurement/procurementDataClient.ts:80-104 | two contexts share a cache key exactly when they ask the same question, whatever the order of filters and of array values and however many empty filters there are |
| QueryContext.EqualKeysAgree | app/procurement/procurementDataClient.ts:95-104 | for pages and sizes of at least one and known workflows, equal keys mean equal type, workflow, page, page size and sort |
| QueryContext.Normalised | app/procurement/procurementDataClient.ts:95-104 | pages and sizes below one are filed as one, unknown workflows as the recent one, everything else as it is |
| QueryContext.EqualKeysSendEqualParams | app/procurement/procurementDataClient.ts:95-145 | contexts with one key send every query parameter with the same multiset of values, so sharing a request or a cache entry never changes the question |
| QueryContext.AppendQueryValue | app/procurement/procurementDataClient.ts:127-134 | a single value replaces what the parameter held, an array adds its items, an empty value changes nothing; no other parameter changes |
| QueryContext.QueryParams | app/procurement/procurementDataClient.ts:136-145 | the parameters sent are, name by name, the base parameters with the filters applied, independently of the order of the filters |
| QueryContext.BaseIsSent | app/procurement/procurementDataClient.ts:136-142 | for filters under names of their own, what is sent besides is exactly the type's name, the workflow, page and page size in decimals that read back as those numbers, and the sort if there is one |
| QueryContext.FilterIsSent | app/procurement/procurementDataClient.ts:127-134 | under its own name a filter sends its text, number or truth value once, each list item as often as it occurs, nothing when empty |
| RequestSafety.NoStaleWrite | app/procurement/procurementDataClient.ts:338-406 | in every run each cache write comes from a request started before it whose key was neither aborted nor requested anew in between, and writers of one key have strictly increasing generations |
| RequestSafety.WritesIffQuiet | app/procurement/procurementDataClient.ts:389-397 | the generation check is exact: a delivered response is cached if and only if its key was left alone since the request started |
| RequestSafety.SingleFlight | app/procurement/procurementDataClient.ts:376-406 | in every run both tables pair the same pending, unaborted request of the current generation with its key, and no key has two unaborted pending requests |
| RequestSafety.LateCleanupSparesSuccessor | app/procurement/procurementDataClient.ts:338-343 | the settlement of an aborted request removes no entry of its successor and writes no cache entry |
| RequestSafety.FreshAfterInvalidateAndAbort | app/procurement/procurementDataClient.ts:279-302 | after invalidating and aborting a set of keys, in every continuation what is cached under them was requested afterwards |
| RequestSafety.RepopulatedIffInFlight | app/procurement/procurementDataClient.ts:257-290 | invalidation alone can be undone by an older request exactly when one is in flight for the key |
| ClientTheorems.ClientNeverWritesStale | app/procurement/procurementDataClient.ts:157-407 | the no-stale-write guarantee for the whole client, prefetching and stale-while-revalidate included |
| ClientTheorems.CachedAnswersItsKey | app/procurement/procurementDataClient.ts:389-397 | a cached payload is what the server answered to a request for exactly that key |
| ClientProgress.StoredWhenDelivered | app/procurement/procurementDataClient.ts:389-397 | in every run a cached entry is one of the deliveries of that run: its request, its payload, and stored at that delivery's time |
| ClientProgress.FreshForItsTime | app/procurement/procurementDataClient.ts:193-202 | a current response delivered at a time is served until invalidated or replaced, fresh exactly up to that time plus the time to live, and while it is fresh a prefetch of its context changes nothing |
| ClientTheorems.FreshAfterSwitch | app/procurement/procurementDataClient.ts:257-302 | after an invalidation followed by `abortAllExcept`, whatever the client does next, the invalidated keys only hold responses requested later, if and only if the context switched to is not among them or has no request in flight |
| ClientTheorems.SparedRequestWrites | app/procurement/procurementDataClient.ts:296-302 | the failing case: a request in flight for the kept context is spared, and its answer is cached although it was asked before the invalidation |
| ClientTheorems.FreshAfterCleanup | app/procurement/ProcurementWorkspaceV13.tsx:646-652 | the same for one context after an invalidation and the clean-up abort of the effect |
| ClientTheorems.SchedulerSafety | app/procurement/procurementDataClient.ts:304-336 | in every reachable state the active count is the number of running prefetches and within a limit of one or two, a waiting queue means the limit is reached, and queued prefetches carry the current epoch |
| ClientTheorems.EachPrefetchInOnePlace | app/procurement/procurementDataClient.ts:250-255 | every prefetch ever queued is queued, running or settled, in exactly one place and there once, and the three numbers add up to those created |
| ClientTheorems.EpochTestUnreachable | app/procurement/procurementDataClient.ts:314-317 | in reachable states draining without the epoch test does the same: the branch never fires |
| ClientTheorems.DeliveryNeedsNoGuards | app/procurement/procurementDataClient.ts:324-334 | delivery neither meets a queued prefetch of an old epoch nor needs the clamp of the active count at zero |
| ClientTheorems.PrefetchWorkShrinks | app/procurement/procurementDataClient.ts:310-336 | without new prefetches the outstanding work never grows, shrinks by exactly what is settled, and shrinks with each request that carries prefetches |
| ClientProgress.FirstInFirstOut | app/procurement/procurementDataClient.ts:250-253 | the queue is in the order the prefetches were asked for, and whatever was started or settled was asked for before everything still queued |
| ClientTheorems.PrefetchFetchesIffNeeded | app/procurement/procurementDataClient.ts:239-255 | a prefetch starts a request exactly when its key is a first page, neither freshly cached nor in flight, the document is visible and a slot is free; otherwise requests and cache stay as they were |
| ClientTheorems.PrefetchedContextIsServed | app/procurement/procurementDataClient.ts:324-330 | once a current prefetch has been answered, entering its context is served from the cache with that payload and reported as a prefetch hit |
| ClientTheorems.ContextSwitch | app/procurement/procurementDataClient.ts:296-302 | `abortAllExcept` empties the queue, leaves at most the kept key in flight and every other pending request aborted, and a request under way for the kept key is adopted by the next load without a new one |
| ClientTheorems.SwitchRejectsRunningPrefetches | app/procurement/procurementDataClient.ts:304-330 | a prefetch running at a context switch is never reported as completed afterwards |
| ClientTheorems.MarksAfterSwitchAreNew | app/procurement/procurementDataClient.ts:304-330 | a key marked as prefetched after a switch was marked before it or was earned by a completed prefetch of a later epoch |
| ClientTheorems.LifecycleGrammar | app/procurement/procurementDataClient.ts:210-237 | every stale-while-revalidate call shows one cache hit, or a cold start followed by nothing while its load is pending and by exactly one outcome afterwards |
| ClientTheorems.ColdCallOutcome | app/procurement/procurementDataClient.ts:216-226 | the outcome is success exactly when the response is delivered and its key was left alone, aborted for an abort or a discarded response, error otherwise |
| ClientProgress.AnswersAreHandedOver | app/procurement/procurementDataClient.ts:217-235 | a waiting call, cold or refreshing, is handed a payload exactly when that payload is delivered to the request it awaits and the key was left alone |
| ClientTheorems.PrefetchHitsAreEarned | app/procurement/procurementDataClient.ts:231-232 | cache hits reported as prefetched, plus the keys still marked, never exceed the prefetches completed in their epoch, and each marked key is cached and was earned by one |
| ProcurementClient.ProcurementDataClient.constructor | app/procurement/procurementDataClient.ts:182-191 | the fresh client: empty tables, concurrency clamped between one and two |
| ProcurementClient.ProcurementDataClient.GetCached | app/procurement/procurementDataClient.ts:193-202 | finds an entry exactly when the key is cached, with its payload, stale exactly when older than the time to live |
| ProcurementClient.ProcurementDataClient.FetchKey | app/procurement/procurementDataClient.ts:376-406 | joins the request in flight or starts one with the next generation, a controller and an in-flight entry |
| ProcurementClient.ProcurementDataClient.LoadKey | app/procurement/procurementDataClient.ts:204-208 | a load changes nothing but what fetching its key changes |
| ProcurementClient.ProcurementDataClient.StaleWhileRevalidate | app/procurement/procurementDataClient.ts:210-237 | takes the `Swr` step: cold start and an awaited load, or a cache hit, the cached payload and a background refresh that uses up the prefetch mark |
| ProcurementClient.ProcurementDataClient.PrefetchKey | app/procurement/procurementDataClient.ts:239-255 | takes the `Prefetch` step; refused beyond the first page, served from the cache exactly when fresh there, joined exactly when otherwise in flight, else queued |
| ProcurementClient.ProcurementDataClient.DrainPrefetchQueue | app/procurement/procurementDataClient.ts:310-336 | the loop refines the recursive `Drain` step |
| ProcurementClient.ProcurementDataClient.TakeTask | app/procurement/procurementDataClient.ts:311-323 | one round of the loop: reject when the epoch is old or the document hidden, start otherwise |
| ProcurementClient.ProcurementDataClient.CancelQueuedPrefetch | app/procurement/procurementDataClient.ts:304-308 | a new epoch and the whole queue rejected in order |
| ProcurementClient.ProcurementDataClient.AbortSilently | app/procurement/procurementDataClient.ts:338-343 | aborts the key's live request if there is one, forgets it and bumps the generation |
| ProcurementClient.ProcurementDataClient.AbortContext | app/procurement/procurementDataClient.ts:292-294 | the public abort of one context |
| ProcurementClient.ProcurementDataClient.AbortAllContextsExcept | app/procurement/procurementDataClient.ts:296-302 | the loop over the controllers aborts all other keys at once, whatever its order |
| ProcurementClient.ProcurementDataClient.InvalidateAffectedContexts | app/procurement/procurementDataClient.ts:257-277 | a cached key survives exactly when no label, without its surrounding white space, is its type, a colon and its workflow; marks go with the entries; the count and both flags of the result |
| DataClient.AffectedIffLabelled | app/procurement/procurementDataClient.ts:257-266 | the affected keys are exactly the cached ones that a label spells out |
| Text.TrimIff | app/procurement/procurementDataClient.ts:258 | trimming takes off exactly the white space around a text |
| ProcurementClient.ProcurementDataClient.InvalidateWhere | app/procurement/procurementDataClient.ts:285-289 | exactly the matching cached keys go, with their marks; other entries and marks stay |
| ProcurementClient.ProcurementDataClient.InvalidateEverything | app/procurement/procurementDataClient.ts:279-284 | the whole cache and all marks go, requests and generations stay |
| ProcurementClient.ProcurementDataClient.SettleRequest | app/procurement/procurementDataClient.ts:389-401 | generation check, cache write and identity-checked clean-up, and the outcome the promise settles to |
| ProcurementClient.ProcurementDataClient.ResumeWaiter | app/procurement/procurementDataClient.ts:216-235 | what each kind of continuation does once its request has settled |
| ProcurementClient.ProcurementDataClient.DeliverResponse | app/procurement/procurementDataClient.ts:324-401 | one delivery: settle, then all continuations in order |
| NoticeFetch.FetchNoticePayload | app/procurement/procurementDataClient.ts:345-374 | at most two fetches, none after an observed abort, a payload exactly when the first usable answer or a retry of a retryable one succeeds, the fault otherwise; the fall-through at the end is unreachable |
| RenderGuard.NoticeRenderGuard.HandleLifecycle | app/procurement/ProcurementNoticeContextRenderGuard.tsx:22-65 | the event handler takes the `OnLifecycle` step |
| RenderGuard.NoticeRenderGuard.FireFrame | app/procurement/ProcurementNoticeContextRenderGuard.tsx:49-53 | the reveal frame takes the guard down only for the key it was made for |
| NoticeView.DisplaySafety | app/procurement/ProcurementWorkspaceV13.tsx:622-652 | after any history, with a context requested and the guard down, the rows were set for the latest request of a context and are the server's answer to exactly that context |
| NoticeView.AcceptedResponseReveals | app/procurement/ProcurementNoticeContextRenderGuard.tsx:45-55 | a current response for the awaited context puts its payload on screen and its reveal frame takes the guard down |
| NoticeProgress.EnteringAsksAndShows | app/procurement/ProcurementWorkspaceV13.tsx:622-652 | after any history, entering a cached context shows what is cached with the guard down and leaves exactly one refresh waiting; an uncached one raises the guard, loading, and leaves exactly one cold continuation; either awaits an open request for the context, the only one in flight, with no prefetch queued |
| NoticeProgress.RefreshedRowsAreShown | app/procurement/ProcurementWorkspaceV13.tsx:627-632 | after any history, a current response to a refresh of the running effect replaces the rows by its payload, with the guard down before and after |
| NoticeProgress.FailureIsShown | app/procurement/ProcurementNoticeContextRenderGuard.tsx:57-60 | after any history, when the request awaited by the running effect's cold start fails, the guard stays up for its context with the error and the rows stay |
| NoticeView.GuardCoversItsContext | app/procurement/ProcurementNoticeContextRenderGuard.tsx:19-65 | the guard is up for the requested context only, at most one frame is due, and it takes the guard down |
| RevisionSafety.NothingMissedIff | app/procurement/ProcurementWorkspaceV13.tsx:799-870 | for every run: at no moment has a change after the first observed revision and up to `lastRevision` been missed, if and only if each check finishing after the effect was cancelled gets a list that can be applied or has nothing left to reconcile |
| RevisionSafety.FinishCoversIff | app/procurement/ProcurementWorkspaceV13.tsx:857-861 | one check finishing leaves every change up to its target covered exactly when the effect is mounted, the list can be applied, or everything was covered already |
| RevisionSafety.NoMissedChange | app/procurement/ProcurementWorkspaceV13.tsx:804-864 | with any number of overlapping checks finishing in any order, before or after the effect is cancelled, every change after the first observed revision and up to `lastRevision` had its contexts removed from the cache after it was committed, as long as the checks finishing after the cancellation get lists that can be applied |
| RevisionSafety.NoMissedChangeWhileMounted | app/procurement/ProcurementWorkspaceV13.tsx:804-864 | while the effect is mounted the same holds whatever the change lists are |
| RevisionSafety.LastRevisionCanRegress | app/procurement/ProcurementWorkspaceV13.tsx:855-861 | a run in which `lastRevision` goes back |
| RevisionSafety.RegressesIffStaleAnswer | app/procurement/ProcurementWorkspaceV13.tsx:849-864 | it goes back exactly when an answer older than what has been reconciled is taken, and what was reconciled stays reconciled |
| RevisionSafety.ReconcileClearsIff | app/procurement/ProcurementWorkspaceV13.tsx:812-860 | reconciling leaves no affected entry exactly when the effect is not cancelled, or the list can be applied, or there was none |
| RevisionSafety.ScopedRemovesExactly | app/procurement/ProcurementWorkspaceV13.tsx:826-830 | applying a list removes exactly the entries one of its changes names in the server's spelling |
| RevisionSafety.ScopedIff | app/procurement/ProcurementWorkspaceV13.tsx:822-829 | a list can be applied exactly when it is not empty, reaches the target and names some context |
| RevisionSafety.CancelledCheckCanSkip | app/procurement/ProcurementWorkspaceV13.tsx:858-861 | for every context and payload a run in which the list is loaded, a change affecting it is committed, and a cancelled check moves `lastRevision` past that change with the outdated list still cached |
| RevisionReconciliation.RevisionEffect.OnRevision | app/procurement/ProcurementWorkspaceV13.tsx:855-861 | when a revision arrives: drop it, adopt it, or read the changes since the last one |
| RevisionReconciliation.RevisionEffect.ApplyScopedChanges | app/procurement/ProcurementWorkspaceV13.tsx:812-831 | applies exactly when the list is there, reaches the target and names contexts; then exactly those contexts are invalidated |
| RevisionReconciliation.RevisionEffect.OnChanges | app/procurement/ProcurementWorkspaceV13.tsx:857-861 | scoped invalidation, else full invalidation unless cancelled, then the new `lastRevision` |
| DirectList.ShowsTheQuery | app/procurement/ProcurementWorkspaceV13.tsx:703-752 | in every run, with the list on screen, not loading and without an error, the rows are the newest request's answer to the query on screen |
| DirectList.OlderRequestsAreInert | app/procurement/ProcurementWorkspaceV13.tsx:729-750 | a superseded request changes neither rows, cache nor loading flag, but its failure raises the error message of the newer list |
| DirectList.AnsweredListIsShownAgain | app/procurement/ProcurementWorkspaceV13.tsx:719-733 | a list once answered is shown at once when entered again, short of clearing the cache or a newer answer, while it is loaded anew |
| DirectList.OlderRequestsAreAborted | app/procurement/ProcurementWorkspaceV13.tsx:727-751 | all requests but the newest have been aborted, and that one too once the list has been left |
| DirectList.DirectReferrals.Load | app/procurement/ProcurementWorkspaceV13.tsx:719-732 | the effect takes the `Enter` step |
| DirectList.DirectReferrals.Receive | app/procurement/ProcurementWorkspaceV13.tsx:733-750 | the continuations take the `Resolve` step |
| LruCache.RecencyIsByLastAccess | app/procurement/ProcurementNavigationReadCache.tsx:102-117 | the reference order is what it says: every accessed key once, ordered by last access |
| LruCache.HoldsMostRecent | app/procurement/ProcurementNavigationReadCache.tsx:102-117 | for every trace of stores and hits the iteration order is exactly the most recently accessed keys up to the limit, oldest first |
| LruCache.SmallerCacheIsTail | app/procurement/ProcurementTabCacheEnhancement.tsx:106-115 | a smaller cache on the same trace holds the newest part of a larger one |
| LruCache.HoldsLastStored | app/procurement/ProcurementNavigationReadCache.tsx:202-210 | a cached response is the one last stored under its key |
| LruCache.LimitKeptUnlessEmptyOldest | app/procurement/ProcurementNavigationReadCache.tsx:106-110 | a store keeps the limit unless a new key enters a full cache whose oldest key is the empty text |
| LruCache.ClearKeepsOrder | app/procurement/ProcurementTabCacheEnhancement.tsx:98-104 | clearing removes exactly the chosen keys and keeps the order of the rest |
| LruCache.ResponseCache.Touch | app/procurement/ProcurementNavigationReadCache.tsx:113-117 | deleting and setting again moves the key to the end |
| LruCache.ResponseCache.Remember | app/procurement/ProcurementTabCacheEnhancement.tsx:106-115 | the eviction loop refines the recursive definition and keeps keys distinct |
| LruCache.ResponseCache.Read | app/procurement/ProcurementNavigationReadCache.tsx:202-210 | a hit returns the value and moves it to the end, a miss changes nothing |
| LruCache.ResponseCache.ReadUnexpired | app/procurement/ProcurementTabCacheEnhancement.tsx:173-181 | an unexpired hit returns the value and moves it to the end; an expired entry is dropped and nothing is returned |
| LruCache.ResponseCache.ClearKind | app/procurement/ProcurementTabCacheEnhancement.tsx:98-104 | exactly the keys with the kind's prefix go |
| LruCache.ResponseCache.ClearAnalysisContextEntries | app/procurement/ProcurementNavigationReadCache.tsx:95-100 | exactly the keys of analysis-context addresses go |
| LruCache.AnalysisContextsAre | app/procurement/ProcurementNavigationReadCache.tsx:98 | those are exactly the addresses containing one of the two path segments |
| ContextEditor.TextRoundTrip | app/procurement/FastAnalysisContextManager.tsx:92-105 | for every text, reading it, showing the list and reading that again gives the same list, title objects included |
| ContextEditor.SavingAgainSendsTheSame | app/procurement/FastAnalysisContextManager.tsx:107-336 | saving, loading what was saved and saving again sends the identical body |
| ContextEditor.SavedIsTyped | app/procurement/FastAnalysisContextManager.tsx:107-336 | for every form and draft, what was typed is what is saved and what loading shows again, field by field; profile and keyword fields the form does not show are the draft's |
| ContextEditor.UneditedSaveIff | app/procurement/FastAnalysisContextManager.tsx:324-336 | an unedited save sends the draft back unchanged, extra profile and keyword fields included, exactly when its lists are trimmed single lines, its experience entries plain title objects and its summary a text |
| JalaliDates.JalaliToGregorian | app/procurement/ProcurementListUxRefinement.tsx:97-113 | the day search returns the first day of the window with exactly the requested parts, and nothing only if there is none or the text does not parse |
| JalaliDates.PrintedParses | app/procurement/ProcurementListUxRefinement.tsx:63-106 | a date printed with Persian digits and padding parses to the same numbers |
| JalaliDates.PrintedShape | app/procurement/ProcurementListUxRefinement.tsx:74-94 | a date in range is printed as four, two and two Persian digits with slashes |
| JalaliDates.AnyWritingParses | app/procurement/ProcurementListUxRefinement.tsx:63-105 | a date typed in Latin, Persian or Arabic digits with slash, dot or dash, padded or not, is read as those numbers, and refused exactly when out of range |
| JalaliDates.JalaliRoundTrip | app/procurement/ProcurementListUxRefinement.tsx:88-113 | searching for the printed date of a day of Persian years 1200 to 1700 gives that day |
| JalaliDates.ProperCalendarsExist | app/procurement/ProcurementListUxRefinement.tsx:82-86 | what the round trip asks of the calendar can be met |
| PageTokens.WindowedPageTokens | app/procurement/ProcurementWorkspaceV13.tsx:377-387 | the loop version computes the windowed row of tokens |
| PageTokens.CollectedPageTokens | app/procurement/ProcurementPaginationEnhancement.tsx:294-304 | the set version computes the tokens of its sorted, filtered numbers |
| PageTokens.SameTokens | app/procurement/ProcurementPaginationEnhancement.tsx:294-304 | with more than seven pages both versions give the same tokens |
| PageTokens.TokensAreWellFormed | app/procurement/ProcurementWorkspaceV13.tsx:377-387 | from page one to the last, neighbours consecutive, the current page present, an ellipsis exactly at each gap |
| PageTokens.OffersNeighbours | app/procurement/ProcurementWorkspaceV13.tsx:377-387 | with more than seven pages exactly the first, the last and the pages within two of the current one are offered |
| PageTokens.FewPagesAgreement | app/procurement/ProcurementPaginationEnhancement.tsx:294-304 | with seven pages or fewer they agree exactly when the current page is within three of both the first and the last |
| OptimisticSelection.SelectionConserves | app/procurement/ProcurementWorkspaceV13.tsx:1041-1072 | for every interleaving on a recommended list, rows, pending and succeeded are together the original rows and the count drops by exactly the pending and succeeded |
| OptimisticSelection.CountNeverClamped | app/procurement/ProcurementWorkspaceV13.tsx:1050 | the clamp of the count at zero never fires there |
| OptimisticSelection.ClickStartsIff | app/procurement/ProcurementWorkspaceV13.tsx:1042 | a click starts a selection exactly when its row is on screen without a stage and not being selected already |
| SelectionOrder.RefusalKeepsOrderIff | app/procurement/ProcurementWorkspaceV13.tsx:1059-1066 | in any state a refusal leaves the list in its original order exactly when it was in order and the row lands behind as many rows as were originally before it and are on screen |
| SelectionOrder.OrderKeptIff | app/procurement/ProcurementWorkspaceV13.tsx:1041-1072 | for every interleaving the list stays in its original order throughout exactly when every refusal lands in place |
| SelectionOrder.RestoredIffInOrder | app/procurement/ProcurementWorkspaceV13.tsx:1058-1067 | once everything has been refused the list is the original one exactly when it is in order |
| SelectionOrder.RefusalsInPlaceRestore | app/procurement/ProcurementWorkspaceV13.tsx:1058-1067 | refusals in place bring the original list and count back |
| SelectionOrder.NestedRefusalsRestore | app/procurement/ProcurementWorkspaceV13.tsx:1058-1067 | last-in-first-out refusals land in place and restore the list exactly, from any state |
| SelectionOrder.FirstRefusedFirstIff | app/procurement/ProcurementWorkspaceV13.tsx:1058-1067 | two selections refused first to last restore the order exactly when the first one was of the last row |
| MarkedSelection.MarksFollowSelections | app/procurement/ProcurementWorkspaceV13.tsx:1047-1067 | in another list, for every interleaving, the rows stay in place with exactly the pending and succeeded ones marked, the count is untouched, and once everything has been refused the list is the original one |
| MarkedSelection.MarkThenRefuse | app/procurement/ProcurementWorkspaceV13.tsx:1047-1062 | a refusal right after its click restores the whole state, whatever else is pending |
| OptimisticSelection.RefusalDriftsIffRowIsBack | app/procurement/ProcurementWorkspaceV13.tsx:1059-1067 | a refusal makes count and rows drift apart exactly when the row is back already |
| OptimisticSelection.NoticeList.Select | app/procurement/ProcurementWorkspaceV13.tsx:1041-1050 | the optimistic part takes the `Begin` step, or nothing when the guard refuses |
| OptimisticSelection.NoticeList.Refused | app/procurement/ProcurementWorkspaceV13.tsx:1058-1070 | the rollback takes the `Fail` step |

## Assumptions

- A delivery is one step: cache write, clean-up, continuations, events and row update happen with
  nothing in between. Between microtasks an invalidation could slip in and leave a prefetch mark
  without its cache entry.
- Entering a context is one step too: cached rows are shown together with the cache-hit event. In the
  source the event is dispatched at once and the rows are set one microtask later, so the guard is
  down over the former rows for that moment, before the browser paints.
- The server lists changes in revision order, one revision per change, oldest first and at most 500
  (backend/procurement/interaction_contract.py:227-235, backend/procurement/views_interaction_contract.py:88-97),
  and may answer a revision request with any number it has passed.
- In the direct list a fetch reports an abort only if its signal was aborted.
- The Persian calendar is an abstract function from days to dates; for the years 1200 to 1700 no two
  days share a date, and the days of a Persian year lie in the window searched for it.

## Left out

- AbortSilently: checks that the controller's request exists and has that key, which in every reachable state it does.
- Payloads: a payload is a count and the identifiers of its rows.
- JSON text of keys: a key is the structured value that is serialised; `localeCompare` is replaced by code-unit order, characters stand for UTF-16 units, and `page` and `pageSize` are integers.
- Promise results of `load` and of a prefetch that joins a request in flight: they carry no state.
- Row edits from elsewhere (`selectNotice`, `handleSync`) are not part of the product of client, guard and effect.
- The background refresh and asynchronous store of the navigation cache are not modelled, and access traces contain no expiry: after one, the results apply again from the content left.
- In the editor: component state, `activateDraft`, and keyword lists that are not arrays; the server is taken to store the body it is sent.
- ISO date texts: a Gregorian date is a day number; `Intl` formatting is not part of this model.
- The exact count request, the dashboard and management effects, login, CSRF, uploads and server endpoints.
- JSX, styles, DOM queries, portals, observers and idle scheduling.
- The older workspaces and wrappers, stage labels and view predicates: composition and finite facts.
- The calendar's month button and activation of analysis contexts: what they would be asked to guarantee does not hold in general.
