# booky, verified

booky books Stripe events as double-entry facts, posts them once a day as one journal in Bokio,
and files EU VAT reports from them. This project models three parts of it in Dafny and proves
what they promise.

**The daily close.** A close of one posting date takes a lock, finishes a half-done upload,
lists the facts, claims a run row, finds or makes one remote journal, commits transaction 1
(attach the facts, mark them batched, store the journal row), finds or makes one remote upload,
and commits transaction 2 (mark posted, complete the run). `Close` is this protocol as a state
machine whose steps are single database transactions and single remote calls. Closes of
different dates, webhook ingests, crashes and entries made by other hands run between any two
steps; a remote call or a transaction can take effect and still report an error. `Store` holds
the tables as a value, `Database` the tables themselves with queries that change them row by row,
and `Service` the code of one call, each of whose queries, calls and transactions is one event of
the machine. `CloseInvariant` and `CloseSteps` prove an invariant of every run; `CloseTheorems`,
`CloseRecovery`, `ServiceRecovery`, `FurtherJournals`, `PostedDays`, `FailedCalls` and `ReviewGates`
say what it means, and `CloseLimits` holds runs that show where its limits are.

**Facts and journals.** `FactBuilders`, `Charges` and `Rounding` turn amounts into facts;
`Journal` and `Bokio` aggregate facts into journal lines and recognise a journal that is already
there. `DoubleEntry`, `ChargeLaws`, `JournalLaws`, `StoreLaws` and `Ingest` prove that they
balance, net out and survive redelivery, and `AccountLaws` which account, date and source group
every amount is booked on.

**Filings.** `Periods`, `Entries`, `EntryTables` and `Webhook` keep one entry per source group;
`Render` prints the two files; `Exports` is the versioned chain of exports as a state machine,
`Evaluation` the code of one evaluation, and `FilingRuns` joins them: rebuild a period, list it,
evaluate it. `PeriodLaws`, `EntryLaws`, `BackfillLaws`, `EntryMeaning`, `RenderLaws` and
`StoredFiles` state what the tables and files say about the facts; `FiledRows` says field by field
which row a sale or a refund gets, `FileReading` what the receiver of a file reads in it, and
`RenderConditions` when it can be rendered. `StaleExports` shows when a file does not say what the
tables say.

`Grouping`, `Listing` and `Text` hold what these share: totals per key, sorting, tables without
blank lines, decimal printing and separated records.

Conventions. Amounts are ore (or hundredths) as unbounded integers; float64 values are exact
fractions, rounded half away from zero. Dates are civil dates. A random identifier is a number
that the environment chooses among unused ones. `Outcome` is how a call or transaction ends:
`Done`, `Aborted` (no effect, error) or `Lost` (effect, and still an error). `None` stands for an
error where the code returns one. A run of a machine is a sequence of events, and
`Run(Init(...), events)` is any state that the system can reach.

Where the code does not do what one would expect, the code was followed:

- Every rounding line has the source group "rounding" and no payload, which the payload column
  does not accept. A day that needs one is sent to Bokio and never stored
  (`CloseRecovery.RoundedDayIsNeverStored`); `CloseLimits.RoundedDay` is a run that gets there, and
  `CloseRecovery.JournalTxCondition` gives the exact condition under which transaction 1 commits.
- A run left `started` is never taken up again (`CloseRecovery.StartedIsForever`).
- After a lost response to a create call, facts that change before the next close lead to a second
  journal for the date (`CloseLimits.LostResponseDoubles`). What a close will do can be told before
  it begins: `FurtherJournals.CallMakesJournal` gives the exact condition, in terms of the run row,
  the unsettled facts and the listed journals, under which a call makes a journal.
- An explicit VAT amount is not range-checked; `ChargeLaws.ChargeBalances` says exactly which
  charges then fail to balance, `ChargeLaws.RefundsBalance` which lists of refunds do, and
  `ChargeLaws.ExplicitVatTooLarge` and `ChargeLaws.ShareTooLarge` are amounts of each kind.
- A close takes in only what is unsettled when it claims the date: facts that arrive after the date
  is completed stay unsettled for ever (`PostedDays.LateFactsStay`). `PostedDays.CallPostsDay` says
  exactly which calls post their whole day.
- When a period's last ready entry goes away after its file was sent, the file stays the latest
  export and the period is marked as unchanged: always for a periodic summary, and for the OSS file
  once a reminder was ever sent (`StaleExports.FileStays`; the exact condition is part of
  `Evaluation.PeriodExports.EvaluatePeriod`).
- A refund's supply date stays its posting date, so no built entry is a correction
  (`EntryMeaning.RefundsNeverCorrect`).
- A sale and its full refund leave no trace in the OSS file, but in a periodic summary they leave a
  zero where the buyer has nothing else in the column (`EntryMeaning.RefundUndoesSaleInSummary`).
- A quarter spelled "2026-Q01" is accepted, and its backfill deletes rows without replacing them
  (`EntryLaws.MisspelledBackfillDeletes`).
- Any two concurrent first events about the same root object, such as a payment's and its charge's
  success, can each build a tax case of their own, because the case is looked up before the
  transaction. The one that stores its case second is then not filed until a backfill
  (`Webhook.FiledAfterRebinding`, `Webhook.RacedDelivery`).

## Model

| member | source | states |
|---|---|---|
| CloseTheorems.SentEqualsStored | internal/accounting/service_run.go:35-172 | in every reachable state a stored journal row names a remote journal with its title and date whose items are, as a multiset, the aggregate of the facts attached to the run, for every order of listing them and every rounding account and tolerance |
| CloseTheorems.AttachedReaggregate | internal/accounting/service_run.go:284-291 | the facts attached to a date with a journal row aggregate, in any listing order and under any configuration, without error and without a rounding line, to the items that were booked |
| CloseTheorems.OneJournalPerDate | internal/accounting/service_run.go:138-172 | over every run in which no create response for the date is lost, at most one remote journal is ever made for that date |
| CloseLimits.LostResponseDoubles | internal/accounting/service_run.go:334-343 | the hypothesis is needed: a concrete run with one lost create response and a changed payout leaves two different service-made journals for one date |
| FurtherJournals.CallMakesJournal | internal/accounting/service_run.go:216-282 | from every reachable state, a call that gets all its answers makes a further journal for its date if and only if the run is absent or failed without a journal row, the unsettled facts are not empty, may be posted and balance up to the tolerance, and the remote side lists no journal with their title, date and items |
| FurtherJournals.SecondJournal | internal/accounting/service_run.go:334-343 | where a journal was made for the date but its run failed without a row, a create response was lost, and the next such call makes another journal if and only if the remote side lists none with the title, date and items that the unsettled facts now aggregate to |
| PostedDays.CallPostsDay | internal/accounting/service_run.go:18-198 | from every reachable state, a call that gets all its answers ends with the run completed and every fact posted that was unsettled before, if and only if: for a date without a run, or whose run failed without a journal row, the facts can be sent and need no rounding line or one that transaction 1 accepts; for a half-done or completed date nothing but its own journal's facts is unsettled; and the run is not started |
| PostedDays.LateFactsStay | internal/accounting/service_run.go:234-235 | over every run after a date is completed, a fact of the date that is not in its journal is pending or needs review |
| ReviewGates.ReviewStopsTheClose | internal/accounting/service_run.go:371-378 | from any state, a call for a date that can be claimed, one of whose facts needs review and has no amount or may not be posted automatically, leaves the store, the remote side and the log as they were, whatever its answers |
| ReviewGates.ReviewsAreNotPosted | internal/accounting/service_run.go:356-380 | over every run, a stored fact that needs review and has no amount stays as it is until an ingest replaces its group; where no close finds automatic posting on, so does every fact that needs review |
| ReviewGates.SendableMeans | internal/accounting/service_run.go:35-47 | the condition that CallMakesJournal and CallPostsDay put on the facts, in their own fields: there are some, none needs review or all that do have an amount and may be posted automatically, and the difference of debits and credits is at most the tolerance |
| FailedCalls.FailedCallsCanBeRepeated | internal/accounting/service_run.go:50-198 | from every reachable state, a call for a date that can be claimed, whose transactions succeed while its reads, checks and remote calls end in any way, leaves the run absent or failed as before, newly failed, or completed, and started only if transaction 1 refused a rounding line |
| CloseTheorems.NoDuplicates | internal/accounting/service_run.go:334-354 | even with lost responses no two service-made journals share title, date and multiset of items, and no two service-made uploads share journal and description |
| CloseTheorems.TitlesTellDates | internal/accounting/service_run.go:97-127 | a journal's title ends with its date and tells it, the description of its upload is the title with a suffix and tells it too, and a resumed close looks for the same description |
| CloseTheorems.RunStates | internal/accounting/service_run.go:233-282 | started means no journal row, journal_created a row without upload, completed exactly a row with upload; upload_created never occurs; a close that got past claiming the run holds a started run without a journal row |
| CloseTheorems.CompletedIsFinal | internal/accounting/service_run.go:234-235 | once completed, a date's run, journal row, attached facts and every remote journal stay as they are over every further run |
| CloseTheorems.FactLifecycle | internal/accounting/service_run.go:153-190 | pending and needs_review facts are attached to no date, batched ones exactly to their own date, which has a journal row without upload, posted ones exactly to their own completed date |
| CloseTheorems.NoFactTwice | migrations/0001_initial.sql:96-100 | no fact is among the booked facts of two committed journals |
| CloseTheorems.LockedFactsStay | internal/store/accounting_queries.go:41-52 | over every run, a batched, posted or reversed fact is never deleted and nothing but its status ever changes |
| CloseRecovery.Recovery | internal/accounting/service_run.go:261-332 | from every reachable half-done date (journal_created, or failed with a journal row), one call whose own steps succeed completes the run within six steps and posts every attached fact, whatever else happens in between and whatever the configuration is now |
| CloseRecovery.StartedIsForever | internal/accounting/service_run.go:169-172 | a started run that no close holds stays started over every further run, gets no journal row, and no further journal is made for its date |
| CloseRecovery.EntryKept | internal/store/posting_queries.go:116-139 | over every run a journal row, once stored, never names another remote journal |
| CloseRecovery.JournalTxCondition | internal/accounting/service_run.go:153-168 | transaction 1 commits if and only if every fact of the journal is still stored and, with a rounding line, the payload column accepts nil and no rounding line of any date is locked |
| CloseRecovery.RoundedDayIsNeverStored | migrations/0001_initial.sql:74 | with the payload column as declared, transaction 1 of a day with a rounding line changes nothing and the run is left started |
| CloseLimits.RoundedDay | internal/accounting/journal.go:34-42 | a concrete run, with a sale whose explicit VAT is -1, reaches transaction 1 with a rounding line and a made journal; the row is stored if and only if the payload column accepts nil, and otherwise the run is abandoned |
| CloseSteps.StepKeeps | internal/accounting/service_run.go:18-198 | every step of a close keeps the invariant of the whole system, and no other date notices it |
| CloseSteps.RunKeeps | internal/accounting/service_run.go:18-198 | the invariant holds after any interleaving of closes, crashes, lost responses, aborted transactions, webhooks and foreign entries |
| CloseSteps.KeepCommitJournal | internal/accounting/service_run.go:153-172 | transaction 1, committed, lost or aborted, keeps the invariant, although webhooks may have replaced listed facts since they were read |
| CloseSteps.KeepWebhook | internal/stripe/service_webhook.go:58-99 | an ingest between any two steps of any close keeps the invariant |
| Service.Service.RunDailyClose | internal/accounting/service_run.go:18-198 | however its reads, calls and transactions end, one call takes exactly the steps that the machine prescribes for those answers, from the lock until the date's process is done, and leaves the store where they lead; it reports success if and only if its last step was the final transaction of a new posting and that was acknowledged, the run then being completed, and "nothing to post" if and only if it ended at a listing that worked and found no unsettled fact of the date |
| ServiceRecovery.OneCallRecovers | internal/accounting/service_run.go:261-332 | a call whose answers are all successes, begun on a reachable half-done date, ends with the run completed and every attached fact posted |
| Service.Service.ResumeUploadIfNeeded | internal/accounting/service_run.go:261-332 | ends with the machine ready to list the facts, or idle after an error |
| Service.Service.ListBooked | internal/accounting/service_run.go:284-291 | lists exactly the facts attached to the date and aggregates them, stopping on an error |
| Service.Service.FinishUpload | internal/accounting/service_run.go:284-332 | reports success only if the run is completed |
| Service.Service.CommitResumed | internal/accounting/service_run.go:323-331 | commits the last transaction of a resumed close as one event of the machine |
| Service.Service.EnsurePostingRun | internal/accounting/service_run.go:216-259 | hands the run on only from the states in which the machine claims it |
| Service.Service.ValidateFactsForPosting | internal/accounting/service_run.go:356-380 | accepts if and only if no listed fact needs review, or automatic posting is on and every one that does has an amount other than zero |
| Service.Service.ListPendingAccountingFacts | internal/store/accounting_queries.go:75-103 | lists each stored fact of the date whose status is pending, needs_review or batched exactly once and nothing else |
| Service.Service.ListFactsByRun | internal/store/posting_queries.go:173-202 | lists each fact attached to the date exactly once and nothing else |
| Service.Service.CollectFactIds | internal/accounting/service_run.go:410-416 | collects exactly the ids of the listed facts |
| Service.Service.ListPostable | internal/accounting/service_run.go:35-47 | hands on exactly the listed facts, or stops without posting anything; it says that there is nothing to post if and only if the listing worked and no fact of the date is pending, in review or batched |
| Service.Service.PrepareDraft | internal/accounting/service_run.go:76-111 | aggregates the facts and appends the rounding line, completed with its source object, or fails the run |
| Service.Service.EnsureRemoteJournal | internal/accounting/service_run.go:334-343 | answers with a matching journal that is already there, or makes one |
| Service.Service.EnsureRemoteUpload | internal/accounting/service_run.go:345-354 | answers with the upload of that journal and description, or makes one |
| Service.Service.LookUpJournal | internal/bokio/client_journals.go:89-104 | finds a journal with the wanted title, date and multiset of items exactly when the remote side holds one |
| Service.Service.LookUpUpload | internal/bokio/client_uploads.go:18-30 | finds the upload of the journal with the description exactly when the remote side holds one |
| Service.Service.CommitJournalRow | internal/accounting/service_run.go:144-172 | transaction 1 as one event of the machine, acknowledged or not |
| Service.Service.AttachAndComplete | internal/accounting/service_run.go:174-193 | upload and transaction 2; success means that the run is completed |
| Service.Service.PostFacts | internal/accounting/service_run.go:76-193 | from the claimed run to the completed one, or to an idle close |
| Service.Service.FailPostingRun | internal/accounting/service_run.go:382-385 | marks the run as failed, ignoring its own error |
| Database.Database.UpsertAccountingFacts | internal/store/accounting_queries.go:12-73 | succeeds exactly when the group replacement is possible and then leaves exactly its result |
| Database.Database.GroupIsLocked | internal/store/accounting_queries.go:18-43 | true exactly when some row of the group is batched, posted or reversed |
| Database.Database.ClearGroups | internal/store/accounting_queries.go:18-58 | succeeds exactly when no row of the groups is locked or attached, and then has deleted exactly their rows |
| Database.Database.InsertFacts | internal/store/accounting_queries.go:60-71 | inserts all facts, or fails on a used id, a taken unique key or a missing payload |
| Database.Database.CreatePostingRun | internal/store/posting_queries.go:16-27 | inserts a started run exactly when the date has none |
| Database.Database.UpdatePostingRun | internal/store/posting_queries.go:29-41 | changes the status of an existing run and nothing else |
| Database.Database.AttachFactsToRun | internal/store/posting_queries.go:92-104 | succeeds exactly when every fact is still stored, and then adds exactly those facts to the date's |
| Database.Database.MarkFactsStatus | internal/store/posting_queries.go:106-114 | sets the status of exactly the given facts |
| Database.Database.UpsertBokioJournal | internal/store/posting_queries.go:116-139 | stores the row of an existing run, replacing the one it had |
| Database.Database.CommitJournal | internal/accounting/service_run.go:153-168 | transaction 1 takes effect as a whole unless it is aborted or impossible, and is acknowledged only if it committed and said so |
| Database.Database.CommitUpload | internal/accounting/service_run.go:182-190 | the same for transaction 2 |
| Database.Database.IngestFacts | internal/stripe/service_webhook.go:93-97 | a webhook's facts are stored as a whole or not at all |
| StoreLaws.GroupsReplaced | internal/store/accounting_queries.go:12-73 | a committed ingest leaves every named group holding exactly the new facts and everything else as it was; a locked row in a named group means that nothing changes |
| StoreLaws.UpsertCondition | internal/store/accounting_queries.go:12-73 | an ingest commits if and only if no row of a named group is locked or attached, no new id is taken elsewhere, and the new facts do not clash among themselves |
| StoreLaws.IngestMeans | internal/store/accounting_queries.go:12-73 | the same condition in the fields of the rows, the five columns of the unique key among them, and the resulting table: the new facts, and of the old ones exactly those of the other groups |
| StoreLaws.LastDeliveryWins | internal/stripe/service_webhook.go:58-99 | delivering the same groups again leaves exactly what the last delivery alone would have left |
| Ingest.SaleFactsDoNotClash | internal/accounting/facts.go:13-60 | the facts of one sale have different ids and different unique keys, whatever the sale |
| Ingest.ChargeIngestCondition | internal/store/accounting_queries.go:12-73 | under unused ids, a sale's facts are stored if and only if none of its groups holds a locked or attached row |
| Journal.AggregateJournalItems | internal/accounting/journal.go:14-87 | computes the aggregate; the first fact is read only when there is one |
| Journal.SumLines | internal/accounting/journal.go:15-26 | the map holds each key's exact total, and the two sums are those of the sides |
| Journal.PrintItems | internal/accounting/journal.go:60-73 | one item per key, with the account and side read back from the key and the key's total |
| Journal.LineKeyParses | internal/accounting/journal.go:60-67 | the printed "account:direction" key parses back to its account and side |
| JournalLaws.AggregateBalances | internal/accounting/journal.go:28-58 | fails exactly when the difference exceeds the tolerance; otherwise both sides of the items are equal, and the rounding line is exactly the difference, on the lacking side of the rounding account, dated by the first fact, pending, in the group "rounding" and without a payload |
| JournalLaws.ItemsExact | internal/accounting/journal.go:60-80 | each account and direction that occurs has exactly one item, each item belongs to one that occurs, its amount is the exact sum of its facts, and the items are in the byte order of their printed keys |
| JournalLaws.AggregatePermutation | internal/accounting/journal.go:14-87 | the order of facts of one date does not change the aggregate |
| JournalLaws.ReaggregateStable | internal/accounting/journal.go:28-33 | aggregating the facts with their rounding line gives the same items and no second line, whatever the rounding account and the tolerance are then |
| JournalLaws.SameLinesSameJournal | internal/accounting/journal.go:18-26 | the items depend only on the multiset of accounts, sides and amounts |
| Bokio.NormalizeJournalItems | internal/bokio/client_helpers.go:10-17 | computes the sorted printed lines |
| Bokio.SameJournalItems | internal/bokio/client_helpers.go:28-38 | decides equality of two normalised lists |
| Bokio.MatcherDecidesMultisetEquality | internal/bokio/client_helpers.go:10-38 | two item lists normalise to the same lines if and only if they are equal as multisets |
| Bokio.FindMatchingJournalEntry | internal/bokio/client_journals.go:89-104 | finds an entry with the title, date and multiset of items, or there is none on the page |
| Bokio.FindUploadByJournalEntryAndDescription | internal/bokio/client_uploads.go:18-30 | finds an upload of the journal with the description, or there is none on the page |
| FactBuilders.BuildSaleFacts | internal/accounting/facts.go:13-60 | an error for a gross amount that is not positive, otherwise the sale, fee and available groups in order with consecutive ids; AccountLaws.SaleMovements says what is in them |
| FactBuilders.BuildRefundFacts | internal/accounting/facts.go:62-76 | receivable, revenue and, if it is booked, VAT of a refund; AccountLaws.RefundOnAccounts says on which accounts |
| DoubleEntry.SaleBalances | internal/accounting/facts.go:13-60 | a sale with revenue = gross - VAT balances on every date if and only if its VAT is zero, or booked and at most the gross amount, or unbooked and twice the gross amount |
| DoubleEntry.RefundBalances | internal/accounting/facts.go:62-76 | the same for a refund |
| DoubleEntry.TransferBalances | internal/accounting/facts.go:78-115 | payout, dispute and review transfers balance on every date, whatever the amount |
| DoubleEntry.BookedDaysNeedNoRounding | internal/accounting/journal.go:28-33 | any list of sound sales, refunds, transfers and notes, in any listing order, aggregates on every date without a rounding line and in balance, even with no tolerance |
| DoubleEntry.ChargeNets | internal/accounting/facts.go:24-57 | over a sale's three groups the receivable nets to zero and the Stripe balance to gross less fee, if these two accounts are used for nothing else |
| DoubleEntry.PaidOut | internal/accounting/facts.go:78-88 | a charge that is paid out, gross less fee, leaves the receivable and the Stripe balance at zero and the bank with what was paid out |
| DoubleEntry.Disputed | internal/accounting/facts.go:90-100 | a charge that is disputed in full leaves the fee on the Stripe balance and the gross amount on the dispute account |
| AccountLaws.SaleMovements | internal/accounting/facts.go:23-57 | every debit and credit of a sale by source group, fact type, account and date, for all selections of these |
| AccountLaws.SaleOnAccounts | internal/accounting/facts.go:23-57 | where the seven accounts differ: the receivable carries the gross amount until it is available, revenue the revenue, output VAT the booked VAT, the Stripe balance the available gross less the fee, the fee accounts the fee and its VAT in and out, and no other account anything |
| AccountLaws.RefundMovements | internal/accounting/facts.go:68-74 | every debit and credit of a refund by source group, fact type, account and date |
| AccountLaws.RefundOnAccounts | internal/accounting/facts.go:68-74 | the receivable is credited with the gross amount, revenue and output VAT are debited with their parts, and no other account is touched |
| AccountLaws.PayoutsAndDisputes | internal/accounting/facts.go:78-100 | a payout moves its amount from the Stripe balance to the bank, a dispute to the dispute account, in their group, on their date |
| Rounding.RoundError | internal/stripe/helpers.go:174-179 | rounding half away from zero is off by at most one half |
| Rounding.RoundDifference | internal/stripe/helpers.go:19-23 | rounding the terms of a difference changes it by at most one |
| Charges.ConvertBalanceTransaction | internal/stripe/helpers.go:15-24 | in another currency with a rate each of the three results is its amount times the rate to the nearest ore; ore are taken as they are, and an amount in another currency without a rate is zero; the converted net differs from converted amount less converted fee by at most one ore for every rate, and not at all where nothing is converted |
| Charges.IncludedVatIsNearest | internal/accounting/sales.go:62-64 | the extracted VAT lies between zero and gross and satisfies VAT * (100 + r) = gross * r up to half of 100 + r |
| ChargeLaws.SplitIsSound | internal/accounting/sales.go:48-65 | revenue and VAT add up to gross, and can be booked in balance if and only if an explicit VAT that is used lies between zero and gross |
| Charges.BuildChargeFacts | internal/stripe/service_charge.go:264-318 | a note, a review or a sale, by the settled amount, the resolution and the account mapping |
| Charges.BuildChargeReviewFacts | internal/stripe/service_charge.go:320-410 | the three movements of a charge against the suspense account, or an error if one has no amount |
| ChargeLaws.ChargeBalances | internal/stripe/service_charge.go:264-318 | however a charge is booked, it balances on every date if and only if it is not a sale whose explicit VAT is out of range |
| ChargeLaws.ChargeSettles | internal/stripe/service_charge.go:264-410 | once available, a charge booked as a sale or for review leaves the receivable at zero and the Stripe balance at gross less fee |
| AccountLaws.ChargeOnAccounts | internal/stripe/service_charge.go:264-318 | a charge booked as a sale puts its VAT (explicit, or the rate's share to the nearest ore, or none) on its market's VAT account and the rest of the gross amount on its revenue account, its fee on the fee account, a quarter of the fee to the nearest ore on the fee's two VAT accounts, and nothing on any other account |
| AccountLaws.ReviewMovements | internal/stripe/service_charge.go:320-410 | every debit and credit of a charge put up for review by source group, fact type, account and date |
| AccountLaws.ReviewOnAccounts | internal/stripe/service_charge.go:320-410 | for every account: the suspense account carries the fee less the gross amount, the receivable and the Stripe balance move as in a sale |
| AccountLaws.ChargeWaits | internal/stripe/service_charge.go:264-318 | a charge's facts need review if and only if its settled amount is unknown, its tax case unresolved or its settlement currency unmapped, and all give that reason; an unknown amount is a single fact of zero on the suspense account |
| Charges.BuildAllRefundFacts | internal/stripe/service_charge.go:176-252 | the refund loop: refunds without a balance transaction are skipped, the others are booked as note, review or refund |
| ChargeLaws.RefundOnVatAccount | internal/stripe/service_charge.go:225-226 | a refund debits the VAT account with its share of the charge's VAT, to the nearest ore, between zero and all of it |
| AccountLaws.ChargeRefundOnAccounts | internal/stripe/service_charge.go:196-248 | a settled refund credits the receivable with what was paid back and takes its share of the VAT, to the nearest ore, off the VAT account and the rest off revenue, or all of it off the suspense account where the charge needs review |
| AccountLaws.UnsettledRefund | internal/stripe/service_charge.go:175-197 | a refund without its balance transaction is not booked; one with an unknown settled amount is a single fact of zero on the suspense account that waits for review and gives the reason |
| ChargeLaws.FullRefundReversesVat | internal/stripe/helpers.go:174-179 | n shares of the VAT whose parts make up the whole charge add up to it within n/2 ore, and exactly for n = 1 |
| ChargeLaws.FullyRefundedCharge | internal/stripe/service_charge.go:176-252 | the facts of n settled refunds that make up the charge take its VAT off the VAT account within n/2 ore, exactly for n = 1 |
| ChargeLaws.OneRefundBalances | internal/stripe/service_charge.go:176-252 | a refund balances on every date if and only if its share of the VAT fits into what was paid back |
| ChargeLaws.RefundsBalance | internal/stripe/service_charge.go:176-252 | the facts of all refunds of a charge balance on every date if and only if every share fits: misfits never make up for each other |
| ChargeLaws.ExplicitVatTooLarge | internal/accounting/sales.go:52-56 | a charge of 100 with an explicit VAT of 150 is booked and does not balance |
| ChargeLaws.ShareTooLarge | internal/stripe/service_charge.go:225-226 | a charge of 1000 refunded in full for 100 reverses 200 of VAT and does not balance |
| ChargeLaws.FullRefundMirrorsSale | internal/stripe/service_charge.go:225-245 | a single full refund, settled for what the charge was settled for, carries exactly the gross, revenue and VAT of the sale |
| Periods.CompletedQuarterPeriods | internal/filings/periods.go:104-113 | the given number of quarters before the current one, newest first, without gaps |
| PeriodLaws.CompletedQuarterIsOver | internal/filings/periods.go:104-113 | the range of a quarter before the current one ends before today |
| PeriodLaws.InRangeIsOwnPeriod | internal/filings/periods.go:46-102 | a civil date lies in the range of an accepted period if and only if that period, as the code spells it, is the date's quarter or month |
| PeriodLaws.OwnPeriodIsCanonical | internal/filings/periods.go:46-62 | the period that the code names for a date is accepted, spelled canonically and contains the date |
| PeriodLaws.QuarterTextInjective | internal/filings/periods.go:50-53 | different quarters have different names |
| PeriodLaws.MonthTextOfParse | internal/filings/periods.go:72-78 | a month that parses is spelled as the code spells it |
| Entries.SummarizeFacts | internal/filings/build_entries.go:285-315 | computes the summary of the facts in the order given; EntryMeaning.SummaryMeans says what is in it |
| Entries.BuildGroupContext | internal/filings/build_entries.go:84-168 | the context of a group, from its first fact in sorting order and its tax case |
| Entries.BuildOssUnionEntry | internal/filings/build_entries.go:170-224 | the OSS entry of a context, with amounts only when ready and review when there is a reason or text outside ISO-8859-1; FiledRows.SyncedSale and FiledRows.SyncedGroup say field by field what is stored of it |
| Entries.BuildPeriodicSummaryEntry | internal/filings/build_entries.go:226-283 | the periodic summary entry of a context, with the last of the reasons that apply in the code's order; FiledRows.SyncedSummary and FiledRows.SyncedGroup say field by field what is stored of it |
| EntryMeaning.ContextIgnoresOrder | internal/filings/build_entries.go:88-93 | for the facts of one event the context is the same for every arrangement of the facts, so ties in the sorting do not matter |
| EntryMeaning.SummaryMeans | internal/filings/build_entries.go:285-315 | gross, revenue and VAT are each the amount of the last fact of the types that stand for it, or zero, and the reason is the first that is given |
| EntryMeaning.FiledUnderFirst | internal/filings/build_entries.go:88-109 | any group is filed under the tax case, object and date of its first fact by type and then by creation |
| EntryMeaning.SaleIsFiledAsBooked | internal/filings/build_entries.go:84-168 | a sale group built by BuildSaleFacts is filed with exactly the gross, revenue and VAT it was booked with, posted on the charge date and supplied on the date in its payload, in whatever order its facts come back |
| EntryMeaning.RefundIsFiledAsBooked | internal/filings/build_entries.go:162-166 | a refund is filed with exactly its booked amounts negated, supplied on its posting date, whatever date its payload gives |
| EntryMeaning.RefundsNeverCorrect | internal/filings/build_entries.go:147-153 | no entry built from facts has a correction target |
| EntryMeaning.RefundedSaleVanishes | internal/filings/build_entries.go:162-166 | an equal sale and refund listed together leave every printed row and every correction as they would be without the two |
| EntryMeaning.CancellingSalesShow | internal/filings/render.go:134-176 | two summary entries that cancel leave the rows as they are if and only if they are in no column or the buyer sells in that column anyway; otherwise the column shows a zero that was empty before |
| EntryMeaning.RefundUndoesSaleInOss | internal/filings/render.go:31-124 | from the facts to the bytes: a built sale and a refund that mirrors it, filed together in whatever order their facts come back, leave the OSS file exactly as it is without them |
| EntryMeaning.RefundUndoesSaleInSummary | internal/filings/render.go:134-149 | from the facts to the file: a built sale and a refund that mirrors it leave every buyer's totals as they are, and the file unchanged unless the buyer has nothing else in the column, which then shows a zero (without row ends in buyers' numbers, exactly then a different file) |
| EntryTables.GroupBySource | internal/filings/build_entries.go:21-27 | groups exactly the facts of filed source groups, keeping their order |
| EntryTables.BuildEntries | internal/filings/build_entries.go:20-82 | one group after the other in order, and the periods of exactly the built entries |
| EntryTables.FilingStore.DeleteOssBySourceGroups | internal/store/filing_entry_queries.go:72-79 | deletes exactly the rows of the groups |
| EntryTables.FilingStore.DeletePsBySourceGroups | internal/store/filing_entry_queries.go:131-138 | deletes exactly the rows of the groups |
| EntryTables.FilingStore.UpsertOssEntries | internal/store/filing_entry_queries.go:11-70 | stores every entry, keeping the id of a row that is there, or fails on a constraint |
| EntryTables.FilingStore.UpsertPsEntries | internal/store/filing_entry_queries.go:81-129 | stores every entry, keeping the id of a row that is there, or fails on a constraint |
| EntryTables.FilingStore.UpsertFilingPeriods | internal/store/filing_period_queries.go:12-28 | adds unknown periods as not evaluated and leaves the rows of known ones as they are |
| EntryTables.FilingStore.SyncWebhookEntries | internal/filings/service_run.go:17-52 | replaces the rows of the named groups in both tables, all or nothing |
| EntryTables.FilingStore.Rebuild | internal/filings/service_run.go:80-127 | replaces the rows of the groups with facts in the period, in the table of its kind, all or nothing |
| EntryTables.FilingStore.BackfillPeriod | internal/filings/service_run.go:66-127 | reads the filing facts of the period's range and rebuilds their rows; an invalid period changes nothing |
| EntryLaws.SyncAgrees | internal/filings/service_run.go:17-52 | after a committed sync each named group has in each table at most one row, equal up to its id and the blanks that fill a short country to what the group's own facts build; all other groups are unchanged |
| EntryLaws.SyncIdempotent | internal/filings/service_run.go:17-52 | syncing the same facts again commits and changes nothing but row ids, in either table or the periods |
| FiledRows.SyncedSale | internal/filings/build_entries.go:170-224 | from the facts of BuildSaleFacts, in any order and among others, to the stored row: after a committed sync a reportable sale to a consumer in the EU has taxable amount = revenue, VAT = booked VAT, the country and sale type of its case, the configured origin, the configured or shown rate, the quarters it was posted and supplied in, and is ready, or without amounts and in review where a text cannot be encoded |
| FiledRows.SyncedSummary | internal/filings/build_entries.go:226-283 | likewise for a sale to a business: its gross amount in ore and to the nearest krona, goods or services by its sale type, its buyer and its month |
| FiledRows.SyncedRefund | internal/filings/build_entries.go:162-166 | likewise for a refund, with negated amounts and the period it was posted in, in either table |
| FiledRows.SyncedGroup | internal/filings/build_helpers.go:15-36 | a filed group has an OSS row if and only if its tax case is EU_*_B2C and a summary row if and only if it is EU_*_B2B with a buyer; where its facts need review or its case is not reportable the row has no amounts and gives the reason |
| FiledRows.SyncCommitsIfRowsFit | internal/filings/service_run.go:17-52 | a sync commits if and only if the columns take the row of every named group in either table: goods or services, and at most two characters of country and origin |
| FiledRows.UnknownSaleTypeAborts | migrations/0003_filings.sql:34-34 | one sale to a business in the EU whose sale type is neither goods nor services, although its entry is only for review, keeps the entries of the whole webhook out of both tables |
| FiledRows.SyncKeepsColumns | internal/filings/service_run.go:17-52 | after a committed sync every row of the summary table is in the goods or the services column, as before |
| FiledRows.BackfillKeepsColumns | internal/filings/service_run.go:66-127 | likewise after a committed backfill |
| EntryLaws.SyncKeepsPeriodRows | internal/store/filing_period_queries.go:12-28 | a sync changes nothing that is known of any period |
| EntryLaws.BackfillAgrees | internal/filings/service_run.go:66-127 | after a committed backfill of a canonically named period each group with facts in it has, in the table of that kind, exactly the row that those facts build, as for a sync; other groups and the other table are unchanged |
| EntryLaws.BackfillIdempotent | internal/filings/service_run.go:66-127 | a committed backfill of any period, of either kind and however it is spelled, commits again and changes nothing but row ids |
| EntryLaws.BackfillKeepsPeriodRows | internal/store/filing_period_queries.go:12-28 | a backfill changes nothing that is known of any period |
| BackfillLaws.BackfillFilesWholeGroups | internal/filings/service_run.go:66-127 | after a committed backfill each group of one date with facts in the period has the row that all of its stored facts build |
| FiledRows.BackfilledSale | internal/filings/service_run.go:66-127 | a committed backfill of the quarter that a charge was posted in leaves the same row of its sale, field by field |
| FiledRows.BackfilledSummary | internal/filings/service_run.go:66-127 | likewise for the month and a sale to a business |
| FiledRows.BackfilledRefund | internal/filings/service_run.go:66-127 | likewise for a refund in either table |
| BackfillLaws.BuiltGroupsHaveOneDate | internal/accounting/facts.go:13-115 | the sale, refund and transfer groups of the builders each have one date |
| BackfillLaws.BackfillAfterSync | internal/filings/service_run.go:66-127 | after a webhook's sync a backfill commits and changes nothing but row ids, where the webhook brought the facts stored for the period, in whatever order, and found the kept tax cases |
| EntryLaws.OssFilterDropsNothing | internal/filings/build_helpers.go:259-270 | for facts of one quarter the period filter keeps every entry if the period is that quarter's name, and none otherwise |
| EntryLaws.PsFilterDropsNothing | internal/filings/build_helpers.go:272-283 | for facts of the named month the period filter keeps every entry |
| EntryLaws.MisspelledBackfillDeletes | internal/filings/service_run.go:91-127 | a backfill of an accepted but otherwise spelled quarter commits and deletes the rows of every group with facts in it, replacing none |
| EntryLaws.MisspelledQuarter | internal/filings/periods.go:55-62 | for every quarter the spelling with a leading zero is accepted with the quarter's range and is not its name |
| Webhook.RebindFactTaxCaseIds | internal/stripe/service_webhook.go:114-129 | every fact in place gets the persisted id of its first matching case, and nothing else changes |
| Webhook.ReboundTo | internal/stripe/service_webhook.go:114-129 | a fact is rebound to the id kept for the root of the first case with its id; without one it stays as it is, and nothing else of it changes |
| Webhook.FiledAfterRebinding | internal/stripe/service_webhook.go:66-107 | after a webhook's sync a filed group has a row in a table if and only if the case id that the database kept is the id of a built case of that table's kind |
| Webhook.RacedDelivery | internal/stripe/service_webhook.go:66-107 | a concrete delivery whose case was stored first under another id leaves both tables empty |
| Webhook.UnknownCaseIsNotFiled | internal/filings/build_entries.go:115-126 | a group whose tax case is not found has no row in either table |
| Render.RenderOssUnion | internal/filings/render.go:19-124 | the bytes of the OSS file: header, sorted non-zero main rows, corrections; FileReading.OssHeaderRead and FileReading.OssFileRead read them back field by field |
| Render.SumOssEntries | internal/filings/render.go:30-56 | the maps hold each key's exact totals over the ready entries |
| Render.RenderPeriodicSummary | internal/filings/render.go:126-187 | the bytes of the periodic summary: header and one row per buyer with sales, sorted; FileReading.PsHeaderRead and FileReading.PsFileRead read them back field by field |
| Render.SumPsEntries | internal/filings/render.go:134-149 | the map holds each buyer's exact totals and which row types occur |
| FileReading.AmountRead | internal/filings/render.go:216-224 | a printed amount, read from its sign, its digits and the two after the comma, is the amount |
| FileReading.OssHeaderRead | internal/filings/render.go:58-63 | the second row of the OSS file of any date is the identifier, the quarter of the date and its year in four digits |
| FileReading.OssFileTellsQuarter | internal/filings/render.go:58-63 | two OSS files of different quarters differ in that row, whatever they list |
| FileReading.OssFileRead | internal/filings/render.go:65-95 | read back field by field, the file has one row per origin, country, rate and sale type whose ready entries do not add up to zero in both amounts, with exactly those sums, in the order of these keys, and then the marker of the corrections if there is any |
| FileReading.OssCorrectionsRead | internal/filings/render.go:97-112 | after the marker one row per corrected quarter and country whose VAT does not add up to zero, with exactly that sum, in order, and nothing else |
| FileReading.PsHeaderRead | internal/filings/render.go:151-160 | the second row of the summary of any month is the reporter's number, the last two digits of the year and the two of the month, the name, the phone and the email |
| FileReading.PsFileTellsMonth | internal/filings/render.go:205-210 | two summaries of different months of one century differ in that row, whoever reports and whatever they list |
| FileReading.PsFileRead | internal/filings/render.go:161-176 | read back field by field, the file has one row per buyer with ready entries, in the order of their numbers, with the exact sum of goods in the second field and of services in the fourth, empty where there are none, and nothing else |
| FileReading.ByteOrder | internal/filings/render.go:66-79 | the order used for sorting is that of bytes: a proper prefix, or the smaller character where two texts first differ |
| RenderConditions.OssRenders | internal/filings/render.go:114-117 | the OSS file of any quarter can be rendered if and only if the identifier has only characters of ISO-8859-1, the entries having no others |
| RenderConditions.PsRenders | internal/filings/render.go:178-181 | the summary of any month can be rendered if and only if the reporter's number, name, phone and email have only such characters |
| RenderLaws.OssConserves | internal/filings/render.go:31-124 | printed taxable amounts add up to those of the ready entries that correct nothing, printed VAT and corrections to the VAT of all ready entries, although zero rows are left out |
| RenderLaws.OssFilePermutation | internal/filings/render.go:19-124 | any order of the entries gives the same bytes |
| RenderLaws.OssFileDetermined | internal/filings/render.go:81-112 | without separators in fields and with canonical correction targets, two files are equal if and only if every main key and every correction key has the same totals in both and both or neither have a correction section |
| RenderLaws.SeparatorsConfuse | internal/filings/render.go:81-92 | the renderer on arbitrary entries in memory needs the hypothesis on separators: two entries that no table holds have different totals and the same file |
| StoredFiles.StoredFileDetermined | internal/filings/render.go:81-112 | for rows in the form of the columns (two characters each for origin and country, a listed sale type, canonical correction targets) two files are equal if and only if all totals are, and both or neither have a correction section, with no assumption about separators |
| FilingRuns.TablesStayStored | migrations/0003_filings.sql:1-23 | with the two-letter origin that the configuration must have, every sync and every backfill leaves rows in that form |
| FilingRuns.ListedFileDetermined | internal/filings/render.go:81-112 | the same equivalence for any two listings of such tables |
| RenderLaws.PsConserves | internal/filings/render.go:134-176 | each column adds up to the exported amounts of the ready entries of its row type |
| RenderLaws.PsFilePermutation | internal/filings/render.go:126-187 | any order of the entries gives the same bytes |
| RenderLaws.PsFileDetermined | internal/filings/render.go:161-176 | without row ends in buyers' numbers, two files are equal if and only if every buyer has the same goods and services in both |
| RenderLaws.WholeSekIsNearest | internal/filings/build_entries.go:348-353 | the integer arithmetic rounds to the nearest krona, halves away from zero: it is odd, off by at most 50 ore and exact for whole kronor |
| RenderLaws.BuyerTotalNear | internal/filings/render.go:134-149 | a buyer's printed total is within 50 ore per entry of the true sum |
| Exports.ExportChain | internal/filings/service_notify.go:25-133 | after any interleaving of evaluations, crashes, lost mails and aborted transactions the stored versions are exactly 1..n, version k is superseded by k + 1 and only n by none, and neighbouring versions have different checksums |
| Exports.ReadTheLast | internal/filings/service_run.go:398-403 | if the version after the export that was read is still free, that export is the last one: a stale reading loses on the unique key |
| Exports.RunKeeps | internal/filings/service_run.go:200-281 | the chain is an invariant of every run of evaluations of one period |
| Evaluation.PeriodExports.GetLatestFilingExport | internal/store/filing_export_queries.go:26-37 | the export with the highest version, or none if there is none |
| Evaluation.PeriodExports.RenderReady | internal/filings/service_run.go:229-276 | renders exactly the ready entries of the period |
| Evaluation.PeriodExports.SendAndStore | internal/filings/service_notify.go:51-133 | one mail, then the new version and its supersession in one transaction; success means that both happened |
| Evaluation.PeriodExports.Conclude | internal/filings/service_run.go:229-281 | nothing is stored or sent when the latest export is current or the reminder was already sent; otherwise success means one mail, the new version and the new status; without faults it succeeds |
| Evaluation.PeriodExports.Decide | internal/filings/service_run.go:229-281 | once the latest export is read: the export and mail of the answer, and the period's row after it, for ready entries, for none and for a render that fails |
| Evaluation.PeriodExports.EvaluateDue | internal/filings/service_run.go:221-281 | for a due, unsubmitted period, without error: with ready entries the latest export shows their render; with none, the latest export is a file exactly if it was one before and the period is a periodic summary or had its reminder, and an OSS period has had its reminder sent or shows it; where the render is already shown, or nothing is ready and no reminder is due, no export and no mail is added; with no fault and a render that works there is no error; the period's row is exported after a new file, has its reminder sent after a reminder, is unchanged after neither, and says that the evaluation failed where the mail failed or nothing could be rendered |
| Evaluation.PeriodExports.EvaluatePeriod | internal/filings/service_run.go:200-281 | the same for any period; one that is submitted or not due is left as it is |
| StaleExports.FileStays | internal/filings/service_run.go:242-266 | for either kind a concrete run ends with an evaluation without a fault, no ready entry, and the file of the entries that are gone still the latest export |
| FilingRuns.RunPeriod | internal/filings/service_run.go:150-158 | rebuilds and evaluates a period: for a canonically named, unsubmitted period, without error the latest export shows the render of what the stored facts of the period build, together with the rows filed in it for groups without facts in it; with no fault and a render that works there is no error |
| FilingRuns.BackfilledInput | internal/filings/service_run.go:66-127 | what is listed after a committed backfill prints exactly that |
| FilingRuns.OnlyReadyShow | internal/filings/service_run.go:229-276 | a period has nothing to send if and only if none of its rows is ready, and otherwise sends the render of all its rows |
| FilingRuns.ListOss | internal/store/filing_entry_queries.go:140-168 | lists each OSS row of the period once |
| FilingRuns.ListPs | internal/store/filing_entry_queries.go:170-196 | lists each summary row of the period once |
| Evaluation.PeriodExports.UpdateEvaluation | internal/store/filing_period_queries.go:70-83 | sets the status and never takes a sent reminder back |
| Evaluation.PeriodExports.MarkSubmitted | internal/store/filing_period_queries.go:85-97 | marks the period as submitted and changes nothing else of it |

## Left out

- Several companies: everything is about one Bokio company, and a run is identified with its date, as the unique index on daily closes allows.
- The lock: at most one close of a date runs at a time. An advisory lock that is lost while its holder goes on, and a remote call that takes effect only after its caller is gone, are not modelled.
- Isolation inside a transaction: each transaction is one atomic step; unique keys, foreign keys, CHECK and NOT NULL constraints are kept as reasons to abort.
- The remote books: other hands may add journals and uploads there at any time, but never edit or delete one. CloseTheorems.SentEqualsStored and CompletedIsFinal depend on that.
- HTTP, JSON, multipart, mail and PDF: a mail or a PDF is something that succeeds or fails, and a checksum stands for its content. The extra page requests of the remote lists are not modelled: the first 100 entries are taken to be all of them.
- Account plan, fiscal year, tax case listing and evidence checksum of a close are one fallible step that changes nothing.
- float64: amounts and rates are exact, so overflow and the rounding error of a float product are not modelled; neither is 64-bit overflow.
- Fact columns that no modelled property reads: Stripe account, event and balance transaction ids, market code, VAT treatment, source currency and amount, timestamps.
- The tax evidence cascade, the older ResolveSale path, and everything of ResolveTaxCase before the market's accounts are found.
- Time zones, deadlines and sending times: whether a period is due is given by the environment; the payload's charge date is a parameter of a filing fact.
- Trimming and upper-casing of texts, leading blanks and signs in scanned periods, and the padding of CHAR(2) columns other than the country of an OSS row.
- Entry payloads and the payout and dispute handlers around their builders.
- Years beyond 9999 in period names, which the four-digit formats cannot express.
- CloseTheorems.OneJournalPerDate: assumes that no create response for the date is lost; CloseLimits.LostResponseDoubles shows why, and FurtherJournals.SecondJournal says when a lost response leads to a second journal.
- FurtherJournals.CallMakesJournal: is about one call that gets all its answers and that nobody interferes with; CloseTheorems.NoDuplicates covers every other run.
- CloseRecovery.Recovery: says nothing about a date whose run is started, which the code never takes up again.
- The order in which rows of a period are listed: no file depends on it (RenderLaws.OssFilePermutation, RenderLaws.PsFilePermutation).
- EntryLaws.BackfillAgrees: is about periods named as the code names them; EntryLaws.MisspelledBackfillDeletes says what happens to the others.
- RenderLaws.OssFileDetermined: assumes fields without ";" and carriage return, and canonical correction targets; RenderLaws.SeparatorsConfuse shows why; StoredFiles.StoredFileDetermined needs no such assumption for rows that a table holds.
- Evaluation.PeriodExports.EvaluatePeriod: is one evaluation that nobody disturbs; evaluations that interleave are covered by Exports.ExportChain.
- Notifications, statistics, admin routes, scheduler, reversal and repost flows.
