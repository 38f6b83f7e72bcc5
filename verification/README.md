# A verified model of the trading pipeline's shared state

The pipeline runs as many short-lived processes on one host. What must not go wrong sits in the state they share: the
OAuth token that every client of a vendor uses, the admission file that paces them, the back-adjusted price panel, the
intraday partitions, the evidence store that later decisions are replayed from, the order journal, and the two ledgers. This project models
those parts in Dafny and proves what each of them promises over every input, every interleaving and every run.

| file | models |
|---|---|
| `TokenRecords.dfy`, `TokenProtocol.dfy`, `TokenDamage.dfy`, `TokenStore.dfy` | the host-wide token record: any number of processes, one lock, one guard, a vendor whose newest token supersedes the old one. `TokenProtocol` is a transition system over all interleavings; `TokenStore` is the locked section as the source writes it, each method proved to execute protocol actions; `TokenDamage` says exactly when a damaged file survives |
| `Pacing.dfy` | the shared `next_free` slot: rate, bounded lead, and the polling pacer |
| `AuthRetry.dfy` | one logical request: admission before every send, one token refresh, rate-limit backoff |
| `PriceRows.dfy`, `PriceChain.dfy` | the adjusted price chain computed incrementally by the nightly ingest and in one batch by the panel rebuild |
| `BarRows.dfy`, `PartitionStore.dfy`, `Publisher.dfy` | the streaming rewrite of one date partition under the shrink guard, and the batching publisher in front of it |
| `CaptureStore.dfy` | immutable artifacts, manifests that certify them, attempt shifting, and reads as of a cutoff |
| `BandScan.dfy` | the bisection of a ranking query that answers at most 30 rows |
| `ExitPlan.dfy` | the allocation of sellable shares to open lots, and the shortfall a run and a rerun report |
| `OrderJournal.dfy`, `OrderGateway.dfy`, `OrderRuns.dfy`, `OrderSubmit.dfy` | the write-ahead order journal and the gateway over it: `OrderGateway` is a transition system of submits, reconciliation, operator decisions, crashes and a broker whose orders may appear late; `OrderRuns` says what holds over every run; `OrderSubmit` is `submit` as the source writes it, proved to perform gateway actions |
| `AuctionEntries.dfy`, `OpenConfirm.dfy`, `AuctionCapture.dfy` | the auction capture: orderbook and program rounds, passes over symbols whose opening price has not printed, and the two manifests |
| `PaperBroker.dfy`, `PaperEntry.dfy`, `EntryFunding.dfy` | the paper ledger with its fees and sizing; one day's entry with fills in rank order and one order row per pick; why sized orders never lack cash |

Prices, slots, clocks and rates are exact reals. Market and vendor behaviour is a function parameter or a nondeterministic
action, so every theorem holds for all of it. `expires_in_seconds` of an issued token is the `expires_in` of section 5.1 of
RFC 6749.

Three properties one might expect of this code hold only under a condition, and are proved with it:

- Damage is not always kept. One might expect that a malformed record or guard is never repaired by accident; but a
  process that read the file before it was damaged and still holds the lock replaces it.
  `TokenDamage.DamageDuringIssueIsOverwritten` is a run in which this happens to both files, and
  `MalformedRecordIsKeptIff` and `MalformedGuardIsKeptIff` give the condition on the lock holder under which damage
  survives every continuation.
- The changed mask of `merge_and_adjust` marks the rows that are new or rescaled; it does not bound what is rewritten. A
  row outside it equals the stored one if and only if its unadjusted close was present, which `PriceChain.MergeAndAdjust`
  states; `PriceChain.RawFillOutsideTheMask` is an example.
- `submit` is to drive an intent to at most one broker order (src/execution/order_gateway.py:207). With
  `exit_resend_on_ambiguous` an exit whose first order the broker lists late ends with two: `OrderRuns.TwoOrders` is such
  a run for every exit, `OrderRuns.OneOrderIff` shows that no other intent and no other setting has one, and
  `OrderRuns.AtMostOneOrder` bounds the orders by two in that case.

## Model

| member | source | states |
|---|---|---|
| TokenProtocol.MutualExclusion | src/api/host_broker_contract.py:399-417 | in every run of any number of processes, two processes inside the locked section are the same process, and the lock names it |
| TokenProtocol.IssuancesAreBounded | src/api/host_broker_contract.py:432-469 | over every run, tokens issued are at most the outside revocations plus the locked checks that found no usable record |
| TokenProtocol.EmptyCheckCameFirst | src/api/host_broker_contract.py:437-446 | a process that may issue without a rejected token made, at an earlier moment since which it has held the lock, a check that found the record absent or unusable |
| TokenProtocol.RedundantIssueKillsNothing | src/api/host_broker_contract.py:454-463 | an issue that supersedes a token still accepted by the vendor is made only after such a check, so asking to replace a rejected token never kills a peer's fresh one |
| TokenProtocol.PublishRaisesGenerationByOne | src/api/host_broker_contract.py:264-274 | in every interleaving a publication carries one above the generation its publisher re-read under the lock, or one; when the record was not damaged in between that is one above the generation on disk |
| TokenProtocol.OneSwapPerRejectedToken | src/api/host_broker_contract.py:454-469 | however many processes saw a token rejected, at most one new token is issued in its place |
| TokenProtocol.PublishSettles | src/api/host_broker_contract.py:464-465 | publishing a token that is still accepted leaves a record that nobody past its check can replace |
| TokenProtocol.StaysSettled | src/api/host_broker_contract.py:454-469 | a settled record stays, and nothing is issued, through every later run without revocation or damage in which it stays usable |
| TokenProtocol.EverybodyAdopts | src/api/_token_client.py:46-71 | while a record is settled every locked check of any process, whichever token it saw rejected, adopts exactly that record |
| TokenProtocol.IssueAttemptsAreSpaced | src/api/host_broker_contract.py:343-351 | under a minimum interval every issue attempt, successful or not, writes its own stamp and stamps are at least the interval apart |
| TokenProtocol.StepInv | src/api/host_broker_contract.py:399-469 | every action of every process or of the outside world keeps the invariant that the theorems above follow from |
| TokenDamage.MalformedRecordIsKeptIff | src/api/host_broker_contract.py:216-230 | a malformed record survives every continuation if and only if no lock holder is past its check and free to publish |
| TokenDamage.MalformedGuardIsKeptIff | src/api/host_broker_contract.py:294-322 | a malformed guard survives every continuation if and only if no lock holder is between its guard check and its stamp |
| TokenDamage.DamageDuringIssueIsOverwritten | src/api/host_broker_contract.py:541-556 | a concrete run in which a guard damaged before its stamp and a record damaged while the vendor is asked are both replaced |
| TokenDamage.OverwriteRecord | src/api/host_broker_contract.py:545-553 | from every state with such a holder there is a continuation that publishes over the damaged record |
| TokenStore.TokenStore.HoldLock | src/api/host_broker_contract.py:508-526 | the wait ends at the first poll that finds the lock free, holding it over the files as that poll found them, or at the first poll past the deadline, idle with a lock timeout, at least lockTimeout after it began |
| TokenStore.TokenStore.PollLock | src/api/host_broker_contract.py:508-526 | the polling loop stops at the first poll that finds the lock free or comes at or after the deadline, and at no earlier one |
| TokenStore.TokenStore.TurnsMakeAWait | src/api/host_broker_contract.py:508-526 | any turns that other processes take between the polls make such a wait, so the methods below may be called after every interleaving |
| TokenStore.TokenStore.GuardBeforeIssue | src/api/host_broker_contract.py:528-539 | the blocking guard code executes guard steps of this process only: it refuses and leaves the guard alone, or waits and leaves its own stamp |
| TokenStore.TokenStore.IssueAndPublish | src/api/host_broker_contract.py:551-556 | asking the vendor, which takes time, and publishing are exactly one issue attempt of this process; the published record is built at the later clock, and a failed issue leaves the record alone |
| TokenStore.TokenStore.LockedSection | src/api/host_broker_contract.py:541-578 | everything between taking and giving back the lock is an execution of steps of this process, asks the vendor at most once, and on success not at all exactly when the record is unchanged |
| TokenStore.TokenStore.UnderLock | src/api/host_broker_contract.py:546-561 | from the polled wait, with other processes acting between the polls, to giving the lock back: only their steps and this process's own, at most one vendor call after the wait, the record is the returned one or as the wait left it, and a lock timeout exactly when the last poll found the lock held, with lockTimeout passed |
| TokenStore.TokenStore.GetOrIssue | src/api/host_broker_contract.py:541-561 | a usable record, or a read error, is returned at once exactly when the record is usable or malformed, with nothing issued, counted or changed; otherwise the caller waits, asks the vendor at most once after the wait, times out exactly when its last poll found the lock held, and success leaves exactly the returned record on disk |
| TokenStore.TokenStore.ReplaceRejected | src/api/host_broker_contract.py:563-578 | for any rejected token, dead or not: success leaves the returned record on disk, with another token when the rejected one was ever issued; failure leaves the record as the wait left it; at most one vendor call; and with a dead token these are protocol actions from idle to idle |
| TokenStore.TokenClient.EnsureToken | src/api/_token_client.py:46-55 | from idle to idle, through the lock-free read or the polled wait: after success the client sends the token of the shared record, after failure the token it had |
| TokenStore.TokenClient.RefreshRejectedToken | src/api/_token_client.py:57-71 | the same for a replacement: the token is never the rejected one, and the call times out exactly when the last poll of its wait found the lock held |
| Pacing.SlotsStaySpaced | src/api/host_broker_contract.py:598-618 | whatever the interleaving and the clocks, successive booked slots are at least one interval apart |
| Pacing.RateIsNeverExceeded | src/api/host_broker_contract.py:598-618 | no half-open window of k intervals ever holds more than k slots |
| Pacing.ArrivalWaitsAtMost | src/api/host_broker_contract.py:673-692 | when all earlier bookings had a lead of at most L and clocks do not go back, an arriving caller of any class waits at most L plus one interval |
| Pacing.AdmissionFile.BookSlot | src/api/host_broker_contract.py:598-618 | one booking moves the file by one step of the ledger, and reports the wait or the refusal that this step means |
| Pacing.HostPacer.Acquire | src/api/host_broker_contract.py:733-747 | whatever peers book during every sleep, the last included, the caller asks, is refused and sleeps as told until its own attempt books one slot; that slot still has its place at the end, lies within the lead limit of that attempt, and is what the caller's clock shows |
| Pacing.SlotsStay | src/api/host_broker_contract.py:598-618 | no later booking moves or takes back a slot |
| AuthRetry.SendWithAuthRetry | src/api/_transport.py:102-169 | every send follows its own admission, at most one refresh and it carries the token just sent, at most max_attempts + 1 sends and max_attempts - 1 sleeps, and the result is the last response with the reason it is final |
| AuthRetry.RefreshAndReplay | src/api/_transport.py:142-150 | the refresh carries exactly the rejected token and its replay is admitted like any send |
| AuthRetry.AdmitAndSend | src/api/_transport.py:139-141 | one admission, then one send with the token held at that moment, stopping at the first call that raises |
| PriceRows.ScaleColumn | src/daily/price_ingest.py:1074-1076 | the reverse cumulative product divided by a row's own factor is the product of the strictly later factors, undefined exactly where it is zero over zero |
| PriceRows.ScaleInPlace | src/daily/price_ingest.py:1077-1079 | assigning only the rows whose scale differs from one scales the whole frame, and marks where the scale is undefined |
| PriceChain.FactorColumn | src/daily/price_ingest.py:1057-1073 | the listed events are the corporate actions of the frame, all of them and no others, each with its factor, for any prices and any repetition of dates |
| PriceChain.MergeAndAdjust | src/daily/price_ingest.py:1018-1082 | for any prices and for new rows in any order, repeated dates included, the merge is the group merge; a row outside the changed mask equals the stored row if and only if that row already had its unadjusted close; and the scale is undefined exactly at events with a zero base |
| PriceChain.RawFillOutsideTheMask | src/daily/price_ingest.py:1043-1081 | a stored row that is neither new nor rescaled and has no unadjusted close comes out different from what was stored |
| PriceRows.SortByDateIsStable | src/backfill/krx_panel_rebuild.py:144-144 | sorting a history by date is a permutation in date order that keeps the rows of one date in the order given |
| PriceRows.LastOfDateIsKept | src/daily/price_ingest.py:1050-1052 | of new rows that repeat a date the merge keeps exactly the last one |
| PriceChain.DeriveAdjustedPrices | src/backfill/krx_panel_rebuild.py:173-194 | the frame updates yield the batch rebuild of a history in any order, repeated dates and any prices included, with an undefined scale exactly at events with a zero base |
| PriceChain.LastRowIsUnscaled | src/backfill/krx_panel_rebuild.py:186-192 | the last row of a rebuilt group is the raw row with its close kept as the unadjusted one, so the next base price meets an unadjusted close |
| PriceChain.SelectTailKeeps | src/daily/price_ingest.py:744-757 | of any fetched rows, date by date, those after the last stored date survive in their order and no others |
| PriceChain.MergeExtendsRebuild | src/daily/price_ingest.py:1041-1080 | merging a tail onto the rebuild of a prefix is the rebuild of the longer history |
| PriceChain.AnySplitGivesTheRebuild | src/daily/price_ingest.py:1018-1082 | any split of the history into runs, overlapping and out of order inside a run, ends in the batch rebuild |
| PriceChain.IngestionEqualsRebuild | src/backfill/krx_panel_rebuild.py:173-194 | the panel kept by nightly ingestion equals, symbol by symbol, the panel a rebuild would write |
| PriceChain.AdjustedChainIsContinuous | src/daily/price_ingest.py:1069-1079 | across an event the adjusted base is the previous adjusted close and the adjusted return is the raw close over the base; otherwise the two differ by at most the tolerance times the scale |
| BarRows.ReconciledSorted | src/data/intraday_store.py:417-438 | reconciling keeps exactly the rows given, without repetition, in strictly ascending slots |
| BarRows.ReconcileBySymbol | src/data/intraday_store.py:417-438 | reconciling a frame reconciles each symbol on its own |
| PartitionStore.NoSymbolEverLosesRows | src/data/intraday_store.py:623-650 | over any run of replaces a symbol never authorised to shrink never has fewer rows than at any earlier moment |
| PartitionStore.Partition.StoredSymbolCounts | src/data/intraday_store.py:313-334 | counting batch by batch gives each symbol's stored row count for every batch size |
| PartitionStore.Partition.ApplyShrinkGuard | src/data/intraday_store.py:348-398 | exactly the symbols that keep their count or may shrink are replaced, and the others' incoming rows are set aside |
| PartitionStore.Partition.StageKeptRows | src/data/intraday_store.py:537-554 | for every batch size the staged file holds the rows of unreplaced symbols in stored order |
| PartitionStore.Partition.BoundedSymbolReplace | src/data/intraday_store.py:497-596 | the rewrite publishes the plain update of the map from symbol to rows and returns the true total, also when nothing or everything is replaced |
| PartitionStore.Partition.RequireCertified | src/data/intraday_store.py:263-292 | a certified write is refused exactly when some symbol's entry may not replace, and otherwise may replace its symbols and those proven without trades |
| PartitionStore.Partition.Write | src/data/intraday_store.py:623-687 | a write happens exactly when the frame is valid and certified (or repeats stored rows), is then the map update, and otherwise leaves the file alone |
| PartitionStore.Partition.RemoveSymbols | src/data/intraday_store.py:599-620 | the named symbols have no rows left and every other symbol keeps its own |
| Publisher.DeliveredOnce | src/daily/archive_intraday.py:524-533 | in a buffer of distinct symbols each delivery's entry, rows and effect are found intact |
| Publisher.CombinedWritable | src/daily/archive_intraday.py:535-547 | a combined write is accepted exactly when every buffered delivery would be accepted alone |
| Publisher.OneWriteIsAllDeliveries | src/daily/archive_intraday.py:535-547 | writing a buffer at once is delivering its frames one after the other |
| Publisher.BufferingIsInvisible | src/daily/archive_intraday.py:510-547 | a stream that ended leaves every symbol with the rows that one write of everything would have left, entries without trades and without rows included |
| Publisher.BatchedPublisher.Add | src/daily/archive_intraday.py:524-533 | a buffered duplicate is refused, the buffer is delivered whole exactly when it reaches the bound, and never holds that many rows between calls |
| Publisher.BatchedPublisher.Flush | src/daily/archive_intraday.py:535-547 | a flush delivers the whole buffer or changes neither the file nor the buffer |
| Publisher.Observe | src/daily/archive_intraday.py:375-407 | one collector result is skipped, buffered or published, unless it breaks the contract or its write is refused |
| Publisher.ArchiveStream | src/daily/archive_intraday.py:977-993 | for every max_rows the stream succeeds exactly when each delivery is deliverable on its own, and the partition is then the fold of all admitted deliveries; on failure it is the fold of an initial part |
| CaptureStore.BytesAreForever | src/data/capture_store.py:117-128 | over every run of publications no stored path ever disappears or changes |
| CaptureStore.ReachableStoresAreSound | src/data/capture_store.py:210-239 | in every reachable store each manifest's references are present and match, although verifying and publishing are two steps |
| CaptureStore.CompleteManifestsAreGood | src/data/capture_store.py:230-233 | no reachable store holds a COMPLETE manifest with a bad entry or with missing evidence |
| CaptureStore.ReadsAtCutoffAreStable | src/data/capture_store.py:343-430 | what completes after a cutoff changes neither the decision nor the cohort read at it, errors included |
| CaptureStore.ReadsAreStableThroughRuns | src/data/capture_store.py:343-484 | the same through any later run of publications: a read before the run and one after it never answer differently |
| CaptureStore.PublishedDecisionReadsBack | src/data/capture_store.py:392-430 | a fully certified decision reads back by its run, from its completion on, as exactly the rows published |
| CaptureStore.RepeatFindsTheSameShift | src/daily/collect.py:244-260 | once kept, a response stays kept in every later store and repeating the call adds nothing |
| CaptureStore.FreeShift | src/daily/collect.py:252-259 | the chosen attempt is the first of six whose path does not hold other evidence |
| CaptureStore.Store.PublishBytes | src/data/capture_store.py:117-128 | a path that is taken keeps its bytes, whether they agree or conflict, and oversize is refused |
| CaptureStore.Store.AppendResponse | src/data/capture_store.py:194-208 | a response is kept under its own identity or the store is unchanged |
| CaptureStore.Store.AppendWithUniqueAttempt | src/daily/collect.py:244-260 | an accepted response is kept at the first free attempt, and the call fails only when all six are taken by other evidence or the response is too large |
| CaptureStore.Store.PublishFrame | src/data/capture_store.py:486-510 | an outcome frame is kept once under its identity and the returned reference holds |
| CaptureStore.Store.PublishManifest | src/data/capture_store.py:217-239 | a manifest is published exactly when it certifies only good entries, its evidence holds and its identity is free |
| CaptureStore.Store.PublishDecision | src/data/capture_store.py:256-326 | a decision is accepted exactly when it lists its cohort once each, is not completed before its evidence, and both publications are possible; then input and manifest are stored and the status is COMPLETE exactly when all entries are good |
| CaptureStore.Store.Latest | src/data/capture_store.py:390-390 | the chosen manifest supersedes every other one considered |
| CaptureStore.Store.ReadDecision | src/data/capture_store.py:392-430 | the answer of a decision read, each error included |
| CaptureStore.Store.ReadCohort | src/data/capture_store.py:453-484 | the answer of a cohort read |
| BandScan.FetchBandRanking | src/daily/universe_scan.py:209-281 | a normal return is exactly the coded part of the closed band within max(1, 2(hi-lo)-1) calls; with an answering vendor and that budget it succeeds if and only if no band that cannot be split is saturated |
| BandScan.SplitCovers | src/daily/universe_scan.py:266-274 | splitting a saturated band keeps every row and every grid step on the work list |
| BandScan.LeafCovers | src/daily/universe_scan.py:275-279 | an answer below the cap settles its rows and its grid steps |
| BandScan.KeepRows | src/daily/universe_scan.py:275-279 | every coded row of an answer is kept under its code, boundary repetitions included |
| ExitPlan.PlanExits | src/daily/order_session.py:594-613 | the greedy loop yields the plan in closed form: each lot takes what it adds to the smaller of shares held and shares sellable |
| ExitPlan.PlannedSellsTotal | src/daily/order_session.py:599-612 | in every initial part of the lot order a symbol's planned sells are the smaller of its lots and its sellable quantity |
| ExitPlan.EveryLotIsDecidedOnce | src/daily/order_session.py:599-612 | each entry is planned or skipped exactly as often as it is a lot |
| ExitPlan.IntentsStayInsideLots | src/daily/order_session.py:599-612 | no intent is empty or exceeds its lot |
| ExitPlan.FinishExitReport | src/daily/order_session.py:633-673 | the report's shortfall and status counts are those of its exits, its skip count is the plan's, it is complete exactly without shortfall and without a blocking status, and for a plan exactly when every lot was planned and its whole quantity was acknowledged or filled |
| ExitPlan.CountExits | src/daily/order_session.py:227-244 | every exit is counted exactly once, as what its status means, and none blocks exactly when the three blocking counts are zero |
| ExitPlan.CompleteIffEveryLotIsSent | src/daily/order_session.py:646-673 | for exits planned from the lots, the two conditions that make a report complete hold exactly when every lot is among the planned ids and its whole quantity was acknowledged or filled |
| ExitPlan.RerunReportsTheSameShortfall | src/daily/order_session.py:551-571 | a rerun over open lots with today's fills added back reports the shortfall of the original plan, although sold-out lots have dropped out |
| OrderJournal.ReadLooksPastTheSend | src/execution/order_journal.py:319-351 | folding the journal gives what a scan past the last send finds: the NOT_FOUND, conflict and verdict that count are those after it |
| OrderJournal.ReadFindsAny | src/execution/order_journal.py:297-360 | folding the journal gives what a scan of the whole list finds: a rejection, a skip, an operator's NOT_FOUND, any NOT_FOUND |
| OrderGateway.StepInv | src/execution/order_gateway.py:206-405 | every durable append, request, broker move, operator decision and crash keeps the invariant that the theorems below follow from |
| OrderRuns.AtMostOneOrder | src/execution/order_gateway.py:206-279 | over every run, crashes, reruns, lost answers and late orders included, an intent has at most one order at the broker or on its way, and at most two after an exit was sent again because its order was found missing |
| OrderRuns.OneOrderIff | src/execution/order_gateway.py:644-667 | no run gives an intent two orders if and only if it is an entry or the resend of exits is switched off |
| OrderRuns.TwoOrders | src/execution/order_gateway.py:644-667 | with the resend switched on every exit has a run that ends with two orders of its own |
| OrderRuns.QuietMeansNoOrder | src/execution/order_journal.py:310-363 | an intent that reads as recorded, not sent, skipped or rejected, and was not resent, has no order and none on its way |
| OrderRuns.AckedMeansOrder | src/execution/order_journal.py:300-309 | an intent that reads as acknowledged or ended at the broker is bound to an existing order of its symbol, side, whole quantity and limit |
| OrderRuns.OneOrderOneIntent | src/execution/order_gateway.py:106-129 | no broker order is ever bound to two intents, whoever bound it |
| OrderRuns.NeverSentAgain | src/execution/order_gateway.py:213-215 | an intent left in any status but recorded or not sent is never sent again, by no rerun and after no crash |
| OrderRuns.JournalsLoad | src/execution/order_journal.py:208-285 | no run writes a journal that its readers would refuse, and none shows more filled than ordered |
| OrderSubmit.Gateway.Submit | src/execution/order_gateway.py:206-279 | a submit performs gateway actions only and writes exactly what the journal's reading, the answers and the search determine: nothing for an intent that is not sendable, one skip when halted or refused, otherwise the send loop; the search was made over the journal as it stood then |
| OrderSubmit.Gateway.ResolveUnknown | src/execution/order_gateway.py:586-668 | an ambiguous send is adopted, noted as a conflict, left open or noted as missing, as the search found, and sent again only as an exit that may be sold |
| OrderSubmit.Gateway.Search | src/execution/order_gateway.py:590-640 | the first list that shows a candidate or cannot be read decides; no order is found missing unless every one of at least one list was readable and showed none |
| OrderSubmit.Gateway.MatchCandidates | src/execution/order_gateway.py:106-129 | the candidates are exactly the listed orders of the intent's shape that no intent is bound to and the baseline does not hold, each once |
| OrderSubmit.SubmitSends | src/execution/order_gateway.py:240-278 | a submit sends at most once for each attempt allowed, once more only for an exit that may be resent, and never for an intent that is settled or open |
| OrderSubmit.ExecuteKeepsOneOrder | src/execution/order_gateway.py:206-279 | whatever actions a submit performs from a state of a run, the bound on the orders of every intent still holds |
| OpenConfirm.EveryVerdictHasEvidence | src/daily/auction_capture.py:638-685 | NO_TRADES always carries a stored valid answer for its own symbol without a price, COMPLETE a stored one for its own symbol with the printed price |
| OpenConfirm.Confirmation.ObserveOpen | src/daily/auction_capture.py:523-635 | one poll settles a symbol with the entry its own replies decide, or leaves its story the same one attempt later, and touches no other symbol |
| OpenConfirm.Confirmation.Pass | src/daily/auction_capture.py:880-916 | one pass over the pending symbols does so for each, in whatever order the requests complete |
| OpenConfirm.AfterPass | src/daily/auction_capture.py:917-929 | after a pass each settled symbol has its one entry and the others none |
| OpenConfirm.ConfirmOpens | src/daily/auction_capture.py:866-946 | over any number of passes every dispatched symbol ends with exactly one price entry, the one its own replies decide, and the incomplete flag is raised exactly by a spoiled primary symbol |
| AuctionCapture.ObserveRound | src/daily/auction_capture.py:795-855 | every dispatched symbol gets exactly one entry of an orderbook or program round, the one its reply decides, also when an orderbook round is over before it starts |
| AuctionCapture.ObserveRounds | src/daily/auction_capture.py:795-855 | the same over all rounds |
| AuctionEntries.SplitKeepsEntries | src/data/research_roster.py:421-440 | splitting off research entries loses and duplicates none |
| AuctionCapture.CaptureOpen | src/daily/auction_capture.py:688-991 | in the opening phase both manifests hold exactly the entries owed, a COMPLETE one has only good entries, and it is COMPLETE if and only if nothing troubled the primary population |
| AuctionCapture.CaptureClose | src/daily/auction_capture.py:775-864 | in the closing phase the same holds with the program rounds beside the orderbook rounds |
| PaperBroker.Investable | src/execution/paper_broker.py:175-186 | capital never exceeds the seed nor the cash with its buy fees set aside |
| PaperBroker.SizingPrice | src/execution/paper_broker.py:189-210 | a missing decision price sizes nothing, and the buffer never lowers the price |
| PaperBroker.Qty | src/execution/paper_broker.py:162-172 | the shares bought at the sizing price fit the allocation |
| PaperEntry.RankedIsSorted | src/daily/paper_trade.py:621-634 | the ranked orders are a permutation in descending prediction, missing ones last, ties by symbol |
| PaperEntry.Settle | src/daily/paper_trade.py:635-659 | the fill loop judges each order against the cash the filled ones before it left, never overdraws, and raises exactly when some confirmed close is not executable |
| PaperEntry.InsufficientIff | src/daily/paper_trade.py:650-656 | an order lacks cash exactly when it costs more than the better ranked fills have left |
| PaperEntry.FillsKeepRank | src/daily/paper_trade.py:657-659 | fills are booked in rank order |
| EntryFunding.EveryOrderIsFunded | src/execution/paper_broker.py:175-210 | with allocations of at most one in total and closes at or below the sizing price no order is ever turned away for cash |
| PaperEntry.LedgerCashIsRemainingCash | src/execution/paper_broker.py:464-503 | the cash the ledger derives from its effective fills falls by exactly what the entry spent |
| PaperEntry.EntryRowsAreOnePerPick | src/daily/paper_trade.py:391-410 | the rows of both entry paths are one for each pick |
| PaperBroker.PaperLedger.RecordFills | src/execution/paper_broker.py:635-660 | a batch is refused exactly when it repeats a key or one of its keys exists, and nothing is written then; otherwise it is appended whole |
| PaperEntry.BookMissed | src/daily/paper_trade.py:578-601 | after a missed auction exactly one row per pick is added, each MISSED_AUCTION, and no fill |
| PaperEntry.BookEntry | src/daily/paper_trade.py:602-677 | the normal path adds exactly one row per pick with its outcome and the fills of the filled ones, and the ledger's cash falls by what they cost and stays non-negative |
| PaperEntry.RunEntry | src/daily/paper_trade.py:456-677 | outside the window, on a booked day, without picks or on an error nothing is booked, and an error has one of its three causes; otherwise one of the two paths is booked |
| PaperEntry.TriggerTwice | src/daily/paper_trade.py:413-429 | whatever the day's second trigger brings, it changes nothing |

## Left out

- HTTP, sessions, JSON decoding and vendor field parsing: a vendor is a function of its inputs or a nondeterministic action.
- Floating point: prices, slots, clocks and rates are reals, because the laws stated are the exact ones.
- Digests and path strings: a digest is the content it identifies, a path is a value, an endpoint stands for its slug, and run identities, security codes and clocks are integers with the order of their strings.
- TokenProtocol.IssuancesAreBounded: assumes that issued tokens are fresh, that the record initially holds the newest token, and that no process dies between issuing and publishing; a newest token that is already dead at the start counts as one revocation.
- TokenProtocol.IssueAttemptsAreSpaced: assumes a clock that does not go back and sleeps that last at least their argument.
- TokenStore.TokenStore.LockedSection: inside the lock only time passes; steps of other processes and outside damage that fall between its statements occur in TokenProtocol alone.
- The asyncio surface of the token store and the pacer: its statements are those of the blocking one, and interleavings inside one process are those of two processes.
- Pacing.RateIsNeverExceeded: assumes the admission file keeps its content; corrupted admission state, which resets the slot to 0 (src/api/host_broker_contract.py:581-595), is excluded, as are two processes with different rates on one file.
- PriceChain.DeriveAdjustedPrices: the source's prices become NaN where the scale is zero over zero, at events with a zero base; exact reals have no NaN, so the model marks those rows by their scale and says nothing about their adjusted prices, here and in the merge.
- PriceChain.IngestionEqualsRebuild: assumes that each run's calendar agrees with the rebuild's own dates as far as the stored history reaches, and positive closes and bases, which the fetch validates.
- Flow columns, index columns and the selection of adjudication events in the price jobs.
- pandas and pyarrow mechanics: null promotion, compression, backups and quarantine files have no effect on the rows; the second stable sort of an already reconciled bar frame is the identity and does not appear.
- Publisher.ArchiveStream: assumes the collector's contract that a delivery carries only rows of its own symbol and that a stream reports a symbol once; a stream that breaks the first can pass or fail by what happens to share its buffer.
- CaptureStore.Store.PublishDecision: the presence of the required columns is a matter of the row type; a failure of its manifest leaves the input stored, as in the source.
- Unsafe relative paths, locking timeouts and I/O errors of the evidence store.
- AuctionCapture.CaptureOpen: assumes that no symbol is dispatched twice, which the roster code ensures for a cohort whose own member list has no repetition; the transient-error retry inside one request and the entries' clocks are not modelled, and an exception of a price request aborts the run before any manifest.
- ExitPlan.PlanExits: carry-over adoption, the time window and halting are outside the model; a halted run plans only skips.
- ExitPlan.FinishExitReport: an exit is its status and filled quantity, never overfilled, which OrderRuns.JournalsLoad proves of the journal; the two are not composed into one state.
- OrderGateway.StepInv: assumes that a definite answer is true (accepted means an order, refused or turned away means none, now and later), that an accepted answer carries the order number, and that operators adopt as src/daily/order_resolve.py:93-110 allows; order numbers are numbers, so their normal form is themselves.
- OrderSubmit.Gateway.Submit: inside a submit no order appears between two of its reads and nothing else happens; orders that land late and crashes at every point occur in OrderGateway.
- Plans that offer a recorded intent again, cancel requests, reconciliation figures, risk amounts, payload validation and the journal's file lock and fsync.
- BandScan.FetchBandRanking: the ranking is fixed during the scan; rounding of the band's percent bounds to basis points is the caller's input here.
- PaperEntry.RunEntry: the trade and NAV ledgers derived afterwards, run-outcome records and the loading of picks and closes are not modelled; a process that dies between recording fills and order rows is excluded.
- Settings, session constants, logging, command-line entry points, the model ranking and the proxy index: reading settles them.
