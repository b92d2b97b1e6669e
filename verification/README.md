# Rechvix money, replication and schedules, verified

A Dafny model of the parts of Rechvix whose mistakes cost money or lose data, and proofs of what they promise.

- **Tax** (`Rounding`, `Decimals`, `PhoneTax`, `InvoiceLaws`, `ServerTax`, `TaxAgreement`): the phone prices an invoice with exact BigInt ratios, the server with 16-decimal quotients. Both are modelled on scaled integers. The phone's comment says the two cannot disagree; the proof finds the condition under which that is so.
- **Replication** (`SyncStore`, `SyncBatch`, `SyncProtocol`, `SyncClient`): a server and any number of devices exchange row versions through logs and cursors, last write wins. A transition system over atomic transactions carries the invariant; classes with the loops of the code refine it.
- **Recurring invoices** (`Calendar`, `RunDates` in `Recurring.dfy`, `Scheduler`): run dates counted from an anchor, and the bounded catch-up with its failures.
- **SEPA direct debit** (`Iban`, `SepaText`, `SepaFile`, `SepaBook`, `SepaDebits`): the IBAN check, the text cleaner, the collection file, and mandates, batches, collections and receipts as one state.
- **Phone books** (`Ledger`, `Receivables`, `PhoneDb`): sharing payments, rebuilding balances, editing and cancelling sales, stock.
- **Two smaller histories** (`RateLimit`, `LeadImport`): a pruned rate limiter against its full history, and a re-runnable file import.

`Wrappers` and `Sequences` are shared by all. `Sorting` holds the stable sort that JavaScript's `sort` and Go's `sort.SliceStable` promise. Code that changes state in place is modelled as classes and loops, proved against functions on values; the laws are lemmas about those functions. What fails (a request that gets lost, a save, a ledger that refuses) is a parameter.

## Where code and text disagree, and limits the proofs found

The model follows the code.

- The phone's tax file says phone and server cannot disagree. The server taxes the line total it has stored in `numeric(20,6)`, and divides at 16 decimals. Counted in decimals, amount and rate always agree exactly as long as the amount has at most 6 and the two together at most 13; for quantity and price that is 6 places between them (`TaxAgreement.AgreementExactly`, `EntriesAgreeExactly`). A quantity and a price of four places each, which the phone's decimals are made for, can differ.
- The limiter's comment calls it a fixed-window limiter; the code is a sliding window. Its table starts afresh at one key too many, so it keeps its limits over all runs exactly up to 20000 keys (`RateLimit.HistoryExactly`).
- `updateSaleContent` adds payments up by cutting decimals off, the ledger by rounding; they agree on every amount the app prints (`PhoneDb.TruncatingAgrees`), and the check against overpaying holds for amounts of at most two decimals (`PhoneDb.OverpaidExactly`).
- `applyBatch` gives changes that wait for a parent one second pass: that settles two levels in any order, but not three in reverse order (`SyncBatch.OneRetryIsTwoLevels`), and the cursor still moves past the conflict.
- `fromSnapshot` reads a negative amount as 0 (`InvoiceLaws.SnapshotRoundTrip`); invoices at rates up to 200.000004 % have none, and above that two halves of a price that includes them can exceed it (`InvoiceLaws.NonNegativeExactly`).
- The migration seeds the log table by table in dependency order, but within a table in the order the rows are read; the invariant needs a parent before its child there too (`SyncProtocol.StartsWell`). Within one batch a wrong order still settles; across two the child is lost (`SyncProtocol.ChildBetweenBatchesIsLost`).
- A chosen allocation is checked entry by entry, so a choice can overpay an invoice exactly when it names one twice (`Ledger.OverpaysExactly`).
- The replication code cites docs/adr/0003-offline-sync.md; the decision record is docs/adr/0008-offline-sync.md.
- In `earliest` the last loop over a weekend never turns.

## Model

| member | source | states |
|---|---|---|
| `TaxAgreement.PhoneAndServerAgree` | apps/mobile/src/lib/tax.ts:34-74 | one line: for amounts of at most six decimals and rates up to 100 % whose product is a multiple of 10^7 (both in units of 10^-10), the phone's exact-ratio components, tax, taxable and gross equal those the server figures from the stored amount with 16-decimal quotients, in both pricing modes, inside a state and between states |
| `TaxAgreement.AgreementExactly` | apps/mobile/src/lib/tax.ts:34-74 | the claim in the comment with its exact condition: all amounts with a decimals at all rates up to 100 % with k decimals give the line the server books from the stored amount, in both modes and inside a state or across, if and only if a <= 6 and a + k <= 13 |
| `TaxAgreement.EntriesAgreeExactly` | apps/mobile/src/lib/tax.ts:34-74 | and in what is entered: all quantities with q decimals, prices with p and rates with k agree if and only if q + p <= 6 and q + p + k <= 13 |
| `TaxAgreement.BookedIsStored` | internal/modules/sales/app/service.go:467-477 | the server's exact quantity x price - discount, stored in numeric(20,6), is the phone's ten-decimal amount stored in the same column |
| `TaxAgreement.SixDecimalsAreKept` | migrations/0019_sales.up.sql:99-102 | the column keeps every amount of at most six decimals as it is |
| `TaxAgreement.SameAmountAgrees` | internal/modules/gstindia/engine.go:96-207 | given one and the same ten-decimal amount, the two ways of figuring agree under the condition on the product alone |
| `TaxAgreement.StoringCanDisagree` | internal/modules/sales/app/service.go:650-658 | a line as entered that differs once stored: 0.005 at 20000.9999 without tax is 100.00 on the phone and 100.01 on the server |
| `TaxAgreement.ComponentAgrees` | internal/modules/gstindia/engine.go:118-158 | one inclusive component: rounding the exact ratio once gives the same minor units as dividing to 16 decimals, multiplying, dividing again and rounding, because the exact value is on a tie (and then the division is exact) or farther from one than the server can drift |
| `TaxAgreement.ServerDrift` | internal/modules/gstindia/engine.go:118-158 | the two server divisions together stay within a fixed distance of the exact component |
| `TaxAgreement.TieIsExact` | internal/modules/gstindia/engine.go:118-158 | exactly on a rounding tie the server's division loses nothing, so it sees the tie too |
| `TaxAgreement.DecimalsSuffice` | apps/mobile/src/lib/decimal.ts:6-23 | an amount with a decimals and a rate with k decimals, a + k <= 13, meet the condition on the product; the other half of the count is in AgreementExactly |
| `TaxAgreement.FinerCanDisagree` | apps/mobile/src/lib/tax.ts:34-40 | a line as entered that differs though it is stored unchanged: 33333333.333333 with 0.00000003 % on top, inside a state, has a CGST of 0 on the phone and of one minor unit on the server |
| `TaxAgreement.InvoicesAgree` | apps/mobile/src/lib/tax.ts:81-98 | whole invoices: with the line totals the server has stored, line by line and in all three totals |
| `TaxAgreement.LabelsAgree` | internal/modules/gstindia/engine.go:127-158 | and label by label: what the phone shows under CGST, SGST and IGST is what the server books as CGST, SGST (UTGST in a union territory) and IGST |
| `PhoneTax.CalcInvoice` | apps/mobile/src/lib/tax.ts:81-98 | the loop over the lines with its accumulators and its map of rate groups gives the lines, totals, components and sorted groups of the specification |
| `PhoneTax.AddToGroup` | apps/mobile/src/lib/tax.ts:83-93 | one round of the map of rate groups, which stays in step with the lines read so far |
| `PhoneTax.AddUp` | apps/mobile/src/lib/tax.ts:81-96 | the accumulators and the groups after all lines |
| `InvoiceLaws.GroupsAddUp` | apps/mobile/src/lib/tax.ts:81-98 | taxable, tax and gross summed over the rate groups are the invoice totals |
| `InvoiceLaws.GroupsAreTheRates` | apps/mobile/src/lib/tax.ts:83-98 | there is exactly one group per rate shown on a line, in rising order of the rates |
| `InvoiceLaws.SameGroupSameRate` | apps/mobile/src/lib/tax.ts:76-79 | two lines share a group exactly when their rates are equal as numbers |
| `InvoiceLaws.InvoiceReconciles` | apps/mobile/src/lib/tax.ts:41-98 | every line and the invoice satisfy taxable + tax = gross, and the components shown add up to the tax |
| `InvoiceLaws.LabelsAreRight` | apps/mobile/src/lib/tax.ts:92-94 | under CGST, SGST and IGST stands the sum of the lines' cgst, sgst and igst; CGST and SGST with equal amounts inside a state only, IGST across states only |
| `InvoiceLaws.InvalidExactly` | apps/mobile/src/lib/tax.ts:43-49 | a line is marked invalid exactly when a field given is no numeral (digits with at most one point) or the discount exceeds quantity times price |
| `InvoiceLaws.HalvesFit` | apps/mobile/src/lib/tax.ts:48-74 | two equal halves never exceed the rounded entered gross for rates up to 200.000004 % |
| `InvoiceLaws.HalvesOverflow` | apps/mobile/src/lib/tax.ts:48-74 | at every higher rate they do, for the price 0.0149999999 |
| `InvoiceLaws.LineIsNonNegative` | apps/mobile/src/lib/tax.ts:41-74 | no figure of a line is negative for rates up to 200.000004 %, or with one component, or with tax on top |
| `InvoiceLaws.TaxableCanGoNegative` | apps/mobile/src/lib/tax.ts:41-74 | at every rate above that one is: an entered price of 0.0149999999 with tax included, inside a state |
| `InvoiceLaws.NonNegativeExactly` | apps/mobile/src/lib/tax.ts:41-74 | for each rate, mode and place of supply: no line has a negative figure if and only if the rate is at most 200.000004 %, or tax is added on top, or the sale is across states |
| `InvoiceLaws.SnapshotRoundTrip` | apps/mobile/src/lib/tax.ts:114-133 | fromSnapshot(snapshot(c)) gives back every stored figure exactly when none of them is negative |
| `InvoiceLaws.IssuedInvoiceReadsBack` | apps/mobile/src/lib/tax.ts:114-133 | an issued invoice whose rates are of that kind always reads back |
| `InvoiceLaws.ReadsBackExactly` | apps/mobile/src/lib/tax.ts:114-133 | for each rate, mode and place of supply: every invoice issued at it reads back from its snapshot as it was if and only if the rate is of that kind |
| `Decimals.RateRoundTrip` | apps/mobile/src/lib/tax.ts:76-79 | the rate printed on a line reads back as exactly that rate |
| `Decimals.MinorRoundTrip` | apps/mobile/src/lib/decimal.ts:34-43 | money printed and parsed again is unchanged exactly when it is not negative |
| `Decimals.MinorParses` | apps/mobile/src/lib/decimal.ts:34-43 | a printed amount parses to exactly its decimal value |
| `ServerTax.ComputeLine` | internal/modules/taxregimes/common.go:49-100 | the n-component line: unrounded taxable, each component divided once, then rounded, and the remainder as taxable or the sum as gross |
| `ServerTax.CalculateLine` | internal/modules/gstindia/engine.go:96-207 | the GST line is the same function on CGST and SGST (or UTGST), or IGST, and cess: computeLine and calculateLine agree on the same rates |
| `ServerTax.NewComponents` | internal/modules/gstindia/engine.go:127-158 | the components appended for a line, in order, with their unrounded amounts |
| `ServerTax.RoundComponents` | internal/modules/gstindia/engine.go:160-169 | the loop that overwrites each amount with its rounded value and adds up the tax |
| `ServerTax.CombinedOfGst` | internal/modules/gstindia/engine.go:110-158 | halves inside a state and the whole between states add to the same combined rate |
| `ServerTax.Calculate` | internal/modules/gstindia/engine.go:54-94 | all lines in order with both totals, or the first error: no lines, an unknown state, or the first line whose HSN code has no rate, by name |
| `ServerTax.FigureLines` | internal/modules/gstindia/engine.go:68-76 | the loop over the lines: what is figured so far is the specification's lines and their sums, and it stops at the first line without a rate |
| `ServerTax.LineReconcilesToEntry` | internal/modules/taxregimes/common.go:72-100 | inclusive lines: taxable + tax is the rounded entered gross; exclusive lines: taxable is the rounded entered amount |
| `ServerTax.GrandTotalIsSumOfGross` | internal/modules/taxregimes/common.go:103-122 | the document's taxable and tax totals add up to the sum of the lines' gross |
| `ServerTax.HalvesNearWhole` | internal/modules/gstindia/engine.go:45-53 | the tax of a line inside a state and across states differs by at most one minor unit: for amounts of either sign, both modes, any rate and cess |
| `ServerTax.HalvesCanDiffer` | internal/modules/gstindia/engine.go:45-53 | and does differ by one for some amount |
| `SyncBatch.EveryChangeCountedOnce` | internal/modules/datasync/datasync.go:227-266 | applied + stale + conflicts is the size of the batch |
| `SyncBatch.NewerWins` | internal/modules/datasync/datasync.go:196-210 | a stored row of a table with `updated_at` is replaced by a version the database would take if and only if that was written later; otherwise nothing changes |
| `SyncBatch.NewRowArrives` | internal/modules/datasync/datasync.go:196-210 | a row not there yet is written, in every table |
| `SyncBatch.DeleteTakesOut` | internal/modules/datasync/datasync.go:166-170 | a delete takes out its row and no other, whenever written, unless another row refers to it |
| `SyncBatch.LatestIsKept` | internal/modules/datasync/datasync.go:196-266 | after a conflict-free batch of upserts every row with a time of writing is the latest among the stored one and those sent, and it is one of them |
| `SyncBatch.UnstampedStays` | internal/modules/datasync/datasync.go:196-200 | in the three tables without `updated_at` no batch of upserts changes a stored row |
| `SyncBatch.BatchKeepsIntegrity` | internal/modules/datasync/datasync.go:142-157 | whatever a batch holds, deletes and malformed changes too, afterwards every row is sound, no two claim one unique value, and every row referred to is there |
| `SyncBatch.ConflictLeavesNoTrace` | internal/modules/datasync/datasync.go:134-164 | a change that ends in conflict leaves store, log and the other changes' results as if it had not been in the batch |
| `SyncBatch.ReapplyingChangesNothing` | internal/modules/datasync/datasync.go:227-266 | a conflict-free batch of upserts applied again is all stale and writes nothing |
| `SyncBatch.DeletesAreReplayed` | internal/modules/datasync/datasync.go:166-211 | not so for deletes: a batch with one applies two changes again |
| `SyncBatch.IdempotentExactly` | internal/modules/datasync/datasync.go:227-266 | a batch that met no conflict changes nothing when applied again if and only if it holds no delete |
| `SyncBatch.ParentInTimeMeansNoConflict` | internal/modules/datasync/datasync.go:227-266 | a change whose missing parents arrive in the first pass, or earlier in the retry list, is never counted as a conflict |
| `SyncBatch.TwoLevelsNeverConflict` | internal/modules/datasync/datasync.go:227-266 | so batches whose missing parents are themselves without missing parents never conflict, in any order |
| `SyncBatch.ThreeLevelsCanConflict` | internal/modules/datasync/datasync.go:227-266 | three levels in reverse order: the last is lost |
| `SyncBatch.OneRetryIsTwoLevels` | internal/modules/datasync/datasync.go:227-266 | batches of upserts whose missing parents form n levels never conflict, whatever the order and the store, if and only if n <= 2 |
| `SyncClient.Database.ApplyOne` | internal/modules/datasync/datasync.go:134-164 | the statement in its savepoint: the outcome of the decision table, and on conflict or a missing parent everything it wrote is gone |
| `SyncClient.Database.ApplyIn` | internal/modules/datasync/datasync.go:166-211 | upserts win only with a newer stamp, deletes are unconditional, and violations are told apart as the database reports them |
| `SyncClient.Database.ApplyBatch` | internal/modules/datasync/datasync.go:227-266 | the two loops compute the two-pass batch, with its counts and its log |
| `SyncClient.Database.Capture` | migrations/0062_data_sync.up.sql:53-70 | the trigger logs a change with the writer as origin, and nothing while sync_skip is on |
| `SyncClient.PushRequest` | internal/modules/datasync/datasync.go:279-298 | a request with a bad device id or more than 1000 changes is refused and changes nothing; otherwise the batch is applied in the device's name |
| `SyncClient.PullPage` | internal/modules/datasync/datasync.go:308-350 | one page: at most `limit` lines examined, the asking device's own left out, the cursor on the last line examined, and more exactly when a line is left |
| `SyncClient.PagesDeliverEverything` | internal/modules/datasync/datasync.go:308-350 | all pages together deliver every later line of the others exactly once and in order, whatever the page size |
| `SyncClient.SelectOwn` | internal/modules/datasync/client.go:239-254 | the next batch of the device's own lines, and the cursor it leads to |
| `SyncClient.PushAll` | internal/modules/datasync/client.go:239-277 | the push loop ends; with no fault it succeeds, and then the cursor is past the whole log |
| `SyncClient.PullAll` | internal/modules/datasync/client.go:279-309 | the pull loop ends; with no fault it succeeds, and then the cursor is past the server's whole log |
| `SyncClient.Round` | internal/modules/datasync/client.go:237-311 | whatever is lost on the way, or if the device stops before saving a cursor, the pair stays in the invariant; a round without faults succeeds, and a round that succeeds leaves device and server with the same rows and no conflict |
| `SyncClient.PushOnce` | internal/modules/datasync/client.go:239-277 | one batch: it fails exactly when the request or the answer is lost or the cursor not saved, and the pair stays in the invariant in each case |
| `SyncClient.PullOnce` | internal/modules/datasync/client.go:279-309 | one page, likewise; a page that says there is more moves the cursor on |
| `SyncClient.FirstRound` | internal/modules/datasync/client.go:237-311 | two fresh databases are such a pair, and their first round ends with the same rows |
| `SyncClient.PairsAreKept` | internal/modules/datasync/client.go:237-321 | the invariant of the protocol is one that rounds keep |
| `SyncProtocol.NextKeepsInv` | internal/modules/datasync/client.go:237-321 | every step (edit on either side, batch, page, relink, with or without saving the cursor) keeps the invariant |
| `SyncProtocol.EveryRunKeepsInv` | internal/modules/datasync/client.go:237-321 | so it holds in every world of a run that starts in one where it holds, for any number of devices |
| `SyncProtocol.StartsWell` | migrations/0062_data_sync.up.sql:72-83 | a world as the migration leaves it, with logs seeded from the rows already there, satisfies the invariant if and only if each seeded log tells of a row's parents before the row |
| `SyncProtocol.OneBatchArrives` | internal/modules/datasync/datasync.go:227-266 | inside one pushed batch a seeded log may tell of children first: with two levels every line arrives, in any order |
| `SyncProtocol.ChildBetweenBatchesIsLost` | internal/modules/datasync/client.go:239-277 | in an earlier batch than its parent a child never arrives, whatever else the two batches hold, and the cursor has passed it |
| `SyncProtocol.SwitchingExactly` | internal/modules/datasync/client.go:150-155 | linking to a new, empty server over an existing link, which keeps the cursors, keeps the invariant if and only if nothing was exchanged before and the log tells of every row, parents first |
| `SyncProtocol.NoConflictEver` | internal/modules/datasync/datasync.go:227-266 | in a reachable world no batch and no page meets a conflict |
| `SyncProtocol.UnpushedIsPastTheCursor` | internal/modules/datasync/client.go:239-277 | a version the server lacks is in the device's log past the saved push cursor, with no origin |
| `SyncProtocol.UnpulledIsPastTheCursor` | internal/modules/datasync/client.go:279-309 | a version the device lacks is in the server's log past the saved pull cursor, written by somebody else |
| `SyncProtocol.UpToDateMeansSameRows` | internal/modules/datasync/client.go:237-311 | a device with nothing left to push or pull has exactly the server's rows |
| `SyncProtocol.QuietWorldIsOne` | internal/modules/datasync/client.go:237-311 | over every run: when no device has anything left, all of them and the server hold the same rows |
| `SyncProtocol.EqualStampsNeverMeet` | internal/modules/datasync/datasync.go:196-210 | two versions with one `updated_at`, or of a table without it, refuse each other for ever, so the assumption on the clocks is needed |
| `Calendar.EarlierIsSmaller` | internal/modules/recurring/recurring.go:70-79 | dates compare as their day numbers do |
| `Calendar.AddMonthsLands` | internal/modules/recurring/recurring.go:70-79 | adding months lands in that month, on the day or the month's last |
| `Calendar.AddDaysCounts` | internal/modules/recurring/recurring.go:42-53 | adding days adds that many to the day number |
| `RunDates.NthLands` | internal/modules/recurring/recurring.go:55-68 | run k of a month rhythm lands step * k months after the anchor, on min(anchor day, last day of the month) |
| `RunDates.WeeksLand` | internal/modules/recurring/recurring.go:42-61 | weekly run k falls 7 * every * k days after the anchor, on the same day of the week, and a step is 7 * every days |
| `RunDates.MonthsLand` | internal/modules/recurring/recurring.go:42-68 | monthly, quarterly and yearly runs land every, 3 * every and 12 * every months apart, on the anchor's day or the month's last where that is earlier; so do single steps |
| `RunDates.NthIncreases` | internal/modules/recurring/recurring.go:55-68 | run dates strictly increase |
| `RunDates.SteppedLands` | internal/modules/recurring/recurring.go:38-53 | stepping with Next visits the same months on the smallest day met so far |
| `RunDates.SteppingAgrees` | internal/modules/recurring/recurring.go:38-68 | Nth equals Next iterated k times exactly when no earlier run was clamped below run k's day |
| `RunDates.EarlyAnchorsNeverDrift` | internal/modules/recurring/recurring.go:38-68 | so always for weeks and for anchors on day 28 or earlier |
| `RunDates.LateAnchorsDrift` | internal/modules/recurring/recurring.go:55-68 | and not for the 31st |
| `Scheduler.DueFrom` | internal/modules/recurring/recurring.go:298-302 | how many periods are due: those up to the first that is in the future or past the end date, and no later one is due |
| `Scheduler.DueInDays` | internal/modules/recurring/recurring.go:298-302 | a period is due when its day is not after today, nor after the end date |
| `Scheduler.WeeksDue` | internal/modules/recurring/recurring.go:295-302 | how many weekly periods are due, in closed form: none before the anchor, then one and one more for every full 7 * every days up to today or the end |
| `Scheduler.Service.Create` | internal/modules/recurring/recurring.go:137-191 | refused exactly for a bad rhythm, a first run in the past, an end before it, a bad address or an invoice that is not final; otherwise the first run is the anchor |
| `Scheduler.Service.SetActive` | internal/modules/recurring/recurring.go:224-229 | pausing and resuming change only the flag |
| `Scheduler.Service.Delete` | internal/modules/recurring/recurring.go:232-237 | removes the schedule and no document |
| `Scheduler.Service.RunPeriod` | internal/modules/recurring/recurring.go:303-318 | one period with its failures: what is created, recorded, advanced and returned in each case |
| `Scheduler.Service.CatchUp` | internal/modules/recurring/recurring.go:295-317 | the bounded loop for one schedule computes the specification, failures included |
| `Scheduler.StopsWhereItShould` | internal/modules/recurring/recurring.go:295-317 | exactly n periods are done, all due and all without mishap, and it stops only at the bound, at a period not due, or at a mishap, which it does not pass |
| `Scheduler.CatchUpDocuments` | internal/modules/recurring/recurring.go:295-317 | the documents created are one whole document for each of the n consecutive periods, and what the mishap left |
| `Scheduler.CatchUpSchedule` | internal/modules/recurring/recurring.go:358-365 | the stored run date is the anchor's run number run_count, and a date past the end switches the schedule off |
| `Scheduler.AllDuePeriodsUpToTheBound` | internal/modules/recurring/recurring.go:295-317 | with nothing going wrong n is min(12, periods due) |
| `Scheduler.WhatIsLeftStaysDue` | internal/modules/recurring/recurring.go:295-317 | what one run leaves undone is exactly what is due afterwards: nothing is skipped between runs |
| `Scheduler.CatchUpKeepsBooks` | internal/modules/recurring/recurring.go:271-319 | in every reachable state next_run_date = Nth(anchor, run_count), and every period done has exactly one whole document, with one more for each time a document was made and the period could not be stored as done |
| `Scheduler.Service.Selected` | internal/modules/recurring/recurring.go:273-291 | the active schedules whose run date has come, each once, in the order of their run dates |
| `Scheduler.Service.RunOnce` | internal/modules/recurring/recurring.go:271-319 | every selected schedule is caught up once, no other is touched, a database error stops the run, and the count returned is the number of whole documents made |
| `Scheduler.ARunDoesWhatIsDue` | internal/modules/recurring/recurring.go:271-319 | after a run without mishaps every selected schedule has advanced by min(12, periods due) |
| `Scheduler.WhereARunLeavesIt` | internal/modules/recurring/recurring.go:358-365 | with its count raised by that, its next date the run of the new count, and active as long as that is within the end |
| `Iban.NormalizeIban` | internal/modules/sepa/xml.go:26-48 | accepted exactly when the text without spaces and hyphens, in capitals, has the shape and its whole rearranged number leaves 1 modulo 97: the rolling remainder is the remainder of the number itself |
| `Iban.RemOfMore` | internal/modules/sepa/xml.go:33-43 | one round of the loop, against the number with every letter written as two digits |
| `Iban.AcceptedIsCompact` | internal/modules/sepa/xml.go:27-47 | normalizing an accepted IBAN again changes nothing |
| `Iban.GapsAreIgnored` | internal/modules/sepa/xml.go:26-30 | a space or hyphen more, anywhere, never changes the answer |
| `Iban.CaseIsIgnored` | internal/modules/sepa/xml.go:26-30 | nor do small letters and capitals |
| `Iban.MistypingIsCaught` | internal/modules/sepa/xml.go:25-48 | an accepted IBAN with one digit replaced by another digit, or one letter by another letter, is refused |
| `Iban.ChangeIsMissed` | internal/modules/sepa/xml.go:25-48 | a change of one character is missed exactly when both characters lead to the same remainder at that place and the shape still fits |
| `Iban.SwapIsMissed` | internal/modules/sepa/xml.go:25-48 | two different neighbours exchanged, in the order they are typed, are missed exactly for B and 1, M and 2, X and 3 in the account part |
| `Iban.SwapRearranged` | internal/modules/sepa/xml.go:32-43 | the same in the rearranged order: neighbours of one class are never missed |
| `SepaText.Clean` | internal/modules/sepa/xml.go:79-101 | the loop with its table of replacements computes the specification |
| `SepaText.CleanedIsClean` | internal/modules/sepa/xml.go:79-101 | whatever comes in: SEPA characters only, single spaces, trimmed, within the length |
| `SepaText.CleanIsFixed` | internal/modules/sepa/xml.go:79-101 | cleaning leaves a text alone exactly when it is clean, so cleaning twice is cleaning once |
| `SepaText.WordsAreKept` | internal/modules/sepa/xml.go:79-101 | unless it is too long, a text keeps all its words in order |
| `SepaText.LongestPrefixIsKept` | internal/modules/sepa/xml.go:79-101 | a text that is too long is cut to the longest prefix within the limit that does not end in a space |
| `SepaText.BaseLetters` | internal/modules/sepa/xml.go:70-76 | letters with accents and the like keep their base letter |
| `SepaFile.BuildFile` | internal/modules/sepa/xml.go:132-193 | the file of the specification, or the first objection in item order |
| `SepaFile.Grouped` | internal/modules/sepa/xml.go:136-147 | the first loop: groups by sequence type and the total, or the first wrong item |
| `SepaFile.BuildBlock` | internal/modules/sepa/xml.go:160-188 | one payment block with its count, control sum and entries in order |
| `SepaFile.EveryItemWrittenOnce` | internal/modules/sepa/xml.go:136-190 | every item is written exactly once, in the block of its own sequence type, and the block counts add up to the header's |
| `SepaFile.ControlSumsAddUp` | internal/modules/sepa/xml.go:155-166 | for whole cents the printed amounts add up to each block's printed control sum, and those to the header's, which is the exact total |
| `SepaFile.HalfCentsDoNotAddUp` | internal/modules/sepa/xml.go:155-180 | for half cents they need not |
| `SepaFile.AddsUpExactly` | internal/modules/sepa/xml.go:155-180 | for d up to 10: all files of amounts with d decimals add up as printed if and only if d <= 2 |
| `SepaBook.Earliest` | internal/modules/sepa/service.go:266-278 | the earliest collection date is the second business day after today |
| `SepaDebits.WeekendDays` | internal/modules/sepa/service.go:266-278 | the weekend of the model is that of the calendar: 2026-01-03, a Saturday, the day after, and every seventh day from them |
| `SepaBook.Office.ChooseThem` | internal/modules/sepa/service.go:310-383 | the loop over the chosen invoices, each once, with the first refusal |
| `SepaBook.ChosenAreOk` | internal/modules/sepa/service.go:311-383 | one debit for every invoice asked for: of a mandate of its own customer, for more than nothing, not already in a debit, FRST exactly when the mandate was not used |
| `SepaBook.Office.CreateBatch` | internal/modules/sepa/service.go:290-411 | the batch with its collections and file, or nothing at all and the first problem |
| `SepaDebits.TakesWhatIsDue` | internal/modules/sepa/service.go:334-348 | a debit takes the invoice's total less its unreversed receipts less its credits, to within half a cent, and exactly that when it is whole cents |
| `SepaDebits.BatchTakesWhatIsDue` | internal/modules/sepa/service.go:322-387 | so does every debit of a batch |
| `SepaDebits.ChosenExactly` | internal/modules/sepa/service.go:337-372 | taken are exactly the final euro invoices of the company with half a cent or more due, an active mandate of the customer, and no debit pending or collected |
| `SepaDebits.LatestIsTaken` | internal/modules/sepa/service.go:358-361 | on the latest active mandate |
| `SepaDebits.EntryCarries` | internal/modules/sepa/service.go:376-386 | the written entry has the IBAN, BIC, reference, date and holder of that customer's mandate, the amount, and the invoice's number in id and remittance |
| `SepaDebits.EveryDebitIsWritten` | internal/modules/sepa/xml.go:136-190 | and every debit of a batch is in its file |
| `SepaBook.Office.Insert` | internal/modules/sepa/service.go:388-403 | the rows of a new batch, all pending |
| `SepaBook.Office.MarkSent` | internal/modules/sepa/service.go:478-496 | a draft is sent and every mandate in it counts as used; anything else is refused unchanged |
| `SepaBook.Office.Discard` | internal/modules/sepa/service.go:499-517 | a draft goes with its collections; a sent batch stays |
| `SepaBook.Office.Result` | internal/modules/sepa/service.go:520-551 | only a pending collection of a sent batch gets a result: a receipt of its amount, or a rejection with the cleaned reason |
| `SepaDebits.CollectedSettles` | internal/modules/sepa/service.go:520-551 | with nothing else booked since it was chosen, a collected debit leaves nothing due, to within half a cent and exactly for whole cents: no direct debit overpays an invoice |
| `SepaDebits.AnswerLowersDue` | internal/modules/sepa/service.go:520-551 | an answer lowers what is due on the collection's invoice by what was collected, and nothing else |
| `SepaDebits.ReversingReopens` | internal/modules/sepa/service.go:334-336 | reversing that receipt makes exactly the amount due again |
| `SepaDebits.PaidReversed` | internal/modules/sepa/service.go:335-335 | reversing a receipt takes its amount off its own invoice, once, and off no other |
| `SepaBook.Office.CreateMandate` | internal/modules/sepa/service.go:161-218 | accepted exactly with a valid IBAN, a BIC of the right shape or none, a holder, a signature date at most a day ahead, a known customer and a new reference |
| `SepaBook.Office.RevokeMandate` | internal/modules/sepa/service.go:245-260 | only an active mandate is revoked, and only its status changes |
| `SepaBook.Office.TakePayment` | internal/modules/sepa/service.go:335-335 | a payment booked outside direct debit keeps the invariant, so what is still due may fall between two batches |
| `SepaBook.Office.PutInvoice` | internal/modules/sepa/service.go:323-346 | an invoice made, finalized or credited elsewhere keeps the invariant, as long as its customer stays |
| `SepaBook.BatchKeepsAll` | internal/modules/sepa/service.go:384-403 | creating a batch keeps the invariant: one open collection per invoice, drafts all pending, a collected one has its own receipt of its amount, a mandate is used exactly when a collection of it was sent, RCUR only after a sent batch, stored counts and totals those of the collections and of the file |
| `SepaBook.SendingKeepsAll` | internal/modules/sepa/service.go:478-496 | so does sending |
| `SepaDebits.SendingMarks` | internal/modules/sepa/service.go:488-494 | and marks exactly the mandates used in the batch, with nothing else of a mandate changed |
| `SepaBook.DiscardKeepsAll` | internal/modules/sepa/service.go:499-517 | so does discarding |
| `SepaBook.ResultIsOk` | internal/modules/sepa/service.go:520-551 | so does a result |
| `SepaBook.RecurringFollowsSent` | internal/modules/sepa/service.go:372-376 | a new collection is RCUR exactly when one of its mandate was sent before |
| `SepaBook.DraftsDoNotCount` | internal/modules/sepa/service.go:372-377 | a draft changes nothing for other invoices, not even the sequence type: two drafts of one mandate are both FRST |
| `SepaBook.StoredIsPrinted` | internal/modules/sepa/service.go:378-382 | the end-to-end id and the amount kept with a collection are those printed in the file, where the id is cleaned a second time |
| `SepaBook.FileMatchesRows` | internal/modules/sepa/service.go:384-398 | the header's count and control sum are those of the new collections |
| `Ledger.AllocatePayment` | apps/mobile/src/lib/ledger.ts:11-35 | the loop over the owing invoices, oldest first |
| `Ledger.NothingIsLost` | apps/mobile/src/lib/ledger.ts:8-35 | what is shared and the credit add up to the payment, and the credit is exactly what exceeds the debt |
| `Ledger.NeverPastDue` | apps/mobile/src/lib/ledger.ts:8-35 | no invoice gets more than it owes, and all get everything when credit is left |
| `Ledger.SettledCountsForNothing` | apps/mobile/src/lib/ledger.ts:3-5 | an invoice that is cancelled or paid gets no share and changes no balance: with it or without it, all results are the same |
| `Ledger.OlderFillsFirst` | apps/mobile/src/lib/ledger.ts:28-33 | of two invoices the one issued earlier, or on the same date the one whose number comes first, is paid in full before the other gets anything, for any total preorder of the numbers |
| `Ledger.AllocateChosen` | apps/mobile/src/lib/ledger.ts:17-27 | the branch with amounts chosen by hand, with its refusals |
| `Ledger.ChosenNeverPastDue` | apps/mobile/src/lib/ledger.ts:17-27 | with every invoice chosen at most once none is paid past what it owes and nothing is lost |
| `Ledger.ChosenTwiceOverpays` | apps/mobile/src/lib/ledger.ts:17-27 | an invoice of any debt, chosen twice, is paid twice over |
| `Ledger.OverpaysExactly` | apps/mobile/src/lib/ledger.ts:8-27 | for each list of chosen invoices: no payment, debts or amounts ever overpay an invoice if and only if none is named twice |
| `Ledger.CustomerBalance` | apps/mobile/src/lib/ledger.ts:40-50 | the loop computes the sums |
| `Ledger.BalanceIsSound` | apps/mobile/src/lib/ledger.ts:40-50 | owed and credit are two sides of one number, and overdue never exceeds owed |
| `Ledger.OverdueExactly` | apps/mobile/src/lib/ledger.ts:40-50 | something is overdue exactly when money is owed on balance and an unpaid invoice is past its date |
| `Receivables.GroupPayments` | apps/mobile/src/lib/receivables.ts:10-15 | the two maps of payments, by sale and by customer |
| `Receivables.ReadSales` | apps/mobile/src/lib/receivables.ts:16-25 | the ledgers after the sales, in the order of the customers' first sales |
| `Receivables.FillCredit` | apps/mobile/src/lib/receivables.ts:26-30 | the loose money of each customer |
| `Receivables.BuildLedgers` | apps/mobile/src/lib/receivables.ts:9-34 | one ledger for every customer with a sale, and it is that customer's |
| `Receivables.SaleIsShown` | apps/mobile/src/lib/receivables.ts:16-25 | every sale appears in its customer's ledger with its number, dates, total and what was received; settled on the spot counts as paid while it has no payments of its own |
| `Receivables.LastBilledIsLatest` | apps/mobile/src/lib/receivables.ts:22-23 | last billed is the latest of the customer's sales |
| `Receivables.LedgerAfterPayment` | apps/mobile/src/screens/Dues.tsx:262-268 | a recorded payment, written as strings and read back, leaves the same invoices with their shares paid and the credit in addition |
| `Receivables.OlderIsSettledFirst` | apps/mobile/src/screens/Dues.tsx:250-268 | in the rebuilt ledger: where the payment has reached an invoice, every earlier one it could go to is settled |
| `Receivables.PaymentLowersBalance` | apps/mobile/src/screens/Dues.tsx:250-268 | owed less credit goes down by exactly the amount, through sharing, storing, rebuilding and balancing |
| `Receivables.OthersUnchanged` | apps/mobile/src/db/repo.ts:239-248 | nobody else's ledger changes |
| `Receivables.CreditOnlyWhenAllPaid` | apps/mobile/src/screens/Dues.tsx:250-268 | credit grows only when none of the invoices it could go to owes anything afterwards |
| `Receivables.TakingPaymentBack` | apps/mobile/src/db/repo.ts:264-274 | a payment for a sale, reversed or voided, raises what the sale's customer owes by its amount as far as the sale was not overpaid, and nobody else's |
| `Receivables.TakingCreditBack` | apps/mobile/src/db/repo.ts:264-274 | so does money on account, without condition |
| `PhoneDb.Database.AdjustStock` | apps/mobile/src/db/repo.ts:88-94 | tracked stock moves by the amount; untracked and unknown items are left alone |
| `PhoneDb.Database.CreateItem` | apps/mobile/src/db/repo.ts:168-175 | a new item starts with the stock entered, or untracked; an id already there is refused |
| `PhoneDb.Database.UpdateItem` | apps/mobile/src/db/repo.ts:176-181 | an item made on this phone and not sent yet gets the stock entered; any other is left alone |
| `PhoneDb.Database.InsertSale` | apps/mobile/src/db/repo.ts:97-105 | the sale and what it takes from stock, in one step, or nothing |
| `PhoneDb.Database.UpdateSaleContent` | apps/mobile/src/db/repo.ts:299-313 | refused for an unknown sale, one the server has seen, or a total below the live payments; otherwise the old content is kept as a revision and stock moves by the difference |
| `PhoneDb.EditExactly` | apps/mobile/src/db/repo.ts:299-306 | an edit is accepted exactly for a sale the server has not seen, not cancelled and not under way, with no more paid than the new total |
| `PhoneDb.Database.AddUpPayments` | apps/mobile/src/db/repo.ts:305-305 | the live payments of the sale, read by truncating |
| `PhoneDb.Database.CancelLocalSale` | apps/mobile/src/db/repo.ts:346-358 | stock goes back once, payments not booked by the server are void, and a second cancel does nothing |
| `PhoneDb.CancelExactly` | apps/mobile/src/db/repo.ts:346-350 | needs a reason and a sale the server has not seen, or one already cancelled |
| `PhoneDb.BookedSurvive` | apps/mobile/src/db/repo.ts:355-355 | booked payments and those of other sales are left as they are, the others of the sale are reversed |
| `PhoneDb.Database.InsertPayments` | apps/mobile/src/db/repo.ts:239-248 | all parts of a payment or none |
| `PhoneDb.Database.ReversePayment` | apps/mobile/src/db/repo.ts:264-274 | a payment is reversed once, with a reason, and never erased |
| `PhoneDb.ReversingRaisesOwed` | apps/mobile/src/db/repo.ts:264-274 | reversing a payment, one the server has booked too, raises the rebuilt balance by its amount, and a booked one stays booked |
| `PhoneDb.InsertKeeps` | apps/mobile/src/db/repo.ts:97-105 | inserting keeps the invariant: every tracked item's stock is its opening stock less what the sales not cancelled took, and revisions run from 0 without a gap |
| `PhoneDb.EditKeeps` | apps/mobile/src/db/repo.ts:299-313 | so does editing |
| `PhoneDb.CancelKeeps` | apps/mobile/src/db/repo.ts:346-358 | so does cancelling |
| `PhoneDb.ReopenKeeps` | apps/mobile/src/db/repo.ts:168-181 | so does entering a stock figure, which counts anew from there |
| `PhoneDb.OverpaidExactly` | apps/mobile/src/db/repo.ts:305-317 | right after an edit the ledger's live payments do not exceed the new total, for all sales and payments whose amounts have at most d decimals, if and only if d <= 2 |
| `PhoneDb.TruncatingAgrees` | apps/mobile/src/db/repo.ts:314-317 | toMinorStr and parseMinor read a plain amount alike exactly when its third decimal is below 5 |
| `PhoneDb.TruncatingReadsMinor` | apps/mobile/src/db/repo.ts:314-317 | so on every amount the app writes |
| `PhoneDb.HalfCentReadsTwoWays` | apps/mobile/src/db/repo.ts:314-317 | and not on 0.005 |
| `PhoneDb.OnlyBookedPaymentsCount` | apps/mobile/src/db/repo.ts:355-355 | after a local cancel only payments the server has booked still count |
| `PhoneDb.CancelUndoesInsert` | apps/mobile/src/db/repo.ts:346-358 | a sale inserted and cancelled leaves the stock as it was |
| `PhoneDb.EditUndoesEdit` | apps/mobile/src/db/repo.ts:308-309 | an edit back to the old content restores the stock |
| `RateLimit.Limiter.Allow` | internal/modules/shop/shop.go:149-168 | each call is answered as the code does, whatever came before; with orderly calls that is the answer of the full history |
| `RateLimit.AnswersFromHistory` | internal/modules/shop/shop.go:149-168 | with time not running backwards, fixed limits per key and at most 20000 keys, a call is granted exactly when fewer than max of all the key's grants lie after the cut |
| `RateLimit.GrantedExactly` | internal/modules/shop/shop.go:149-168 | said of times: fewer than max of the key's grants lie later than a window ago and not after now |
| `RateLimit.KeepsRecentHistory` | internal/modules/shop/shop.go:152-158 | what is kept of a key is its history from the latest cut on |
| `RateLimit.NoWindowOverfull` | internal/modules/shop/shop.go:149-168 | so no window, wherever it ends, ever holds more than max grants |
| `RateLimit.HistoryExactly` | internal/modules/shop/shop.go:149-168 | over all runs in time order with fixed limits per key and at most n keys, every answer is the full history's if and only if n <= 20000 |
| `RateLimit.TooManyClients` | internal/modules/shop/shop.go:164-166 | 20001 clients with one call each, and the first is granted its second call inside its window |
| `LeadImport.Crm.Import` | internal/modules/crm/import.go:54-208 | the loop over the rows computes the specification and its report |
| `LeadImport.Crm.ImportRow` | internal/modules/crm/import.go:121-206 | one row: read, recognised, saved and reported, in the order of the code |
| `LeadImport.OneResultPerRow` | internal/modules/crm/import.go:121-207 | one result per row, in row order, and a dry run saves nothing |
| `LeadImport.DryRunForetells` | internal/modules/crm/import.go:175-206 | a dry run says of each row what the real run does when saves succeed, with Valid for Committed |
| `LeadImport.CreatedIsRecognised` | internal/modules/crm/import.go:171-206 | what a run committed or found to be a duplicate is recognised by the keys of the leads it leaves |
| `LeadImport.SecondRunSkips` | internal/modules/crm/import.go:50-53 | whatever the saves did: a row the first run committed or found to be a duplicate is a duplicate the second time |
| `LeadImport.SecondRunCommitsNothing` | internal/modules/crm/import.go:50-53 | when the first run's saves succeeded, the second commits nothing, and its errors are the same |
| `LeadImport.ReadIsSound` | internal/modules/crm/import.go:121-170 | a lead that was read is stored as it is, so the keys built from the database are those of the import |
| `LeadImport.ReadExactly` | internal/modules/crm/import.go:121-170 | a row becomes a lead exactly under the listed checks of its fields |
| `LeadImport.SameExactly` | internal/modules/crm/import.go:210-233 | two leads are the same by phone exactly with seven digits or more each and the same last ten, whatever their names; else by e-mail, else by title and company, but for case |
| `LeadImport.DuplicateExactly` | internal/modules/crm/import.go:171-175 | a lead is a duplicate exactly when one seen before is the same |
| `LeadImport.Builder.MakeReport` | internal/platform/importer/importer.go:167-188 | sorted by row number and counted by kind |
| `LeadImport.ReportIsComplete` | internal/platform/importer/importer.go:167-188 | every result once, in row order, and the four counts add up to the number of rows |

## Left out

- Replication: sequence numbers that become visible out of order across concurrent transactions (transactions are atomic here), rows referenced from tables that are not synced, and the row payload's column filtering.
- SyncProtocol.EveryRunKeepsInv: starts where the invariant holds; a log seeded with a child category before its parent is outside it, and `SyncProtocol.StartsWell` says exactly which are inside. Linking over an existing link is no action of the protocol; `SyncProtocol.SwitchingExactly` says when it would be sound.
- Replication: convergence is claimed for upserts that raise `updated_at`, with one content per stamp and no unique value claimed by two rows; deletes are applied unconditionally and conflicts are dropped past the cursor.
- TaxAgreement.PhoneAndServerAgree: one way only (the exact result, by decimals, is `TaxAgreement.AgreementExactly`); covers two-digit currencies and no cess, because the phone knows neither other currencies nor cess.
- TaxAgreement: line totals of 10^14 and more, which the column refuses, and fields the phone reads as 0 and the server refuses (an empty one, say).
- Decimals: a price with more than ten decimals reads as 0 on the phone, as in the code; the invoice labels and GSTIN parsing (`isInterState`) are plain comparisons.
- Scheduler: the log rows of `recurring_runs`, e-mail, the loop over organisations, and schedules changed by another user while a run is under way; `today` is one date per run. A failed finalizing leaves a draft behind and a failed write repeats the period; both are in the model (`Scheduler.WhatAMishapLeaves`).
- Calendar: months are only added, never subtracted.
- Iban: the check of creditor identifier shapes; capitals of letters outside ASCII other than the two that become plain letters.
- SepaFile: XML escaping, the fixed tags, dates and the creditor's own details; only what differs between items, blocks and header is modelled.
- SepaBook: encryption of the stored IBAN (and its failure), the audit log, permissions, several organisations, and two batches created at the same moment, which the unique index settles.
- Ledger: the collation of invoice numbers is a parameter; reminders and age buckets are one branch each.
- Receivables: customer names, and the ledger objects are values here, replaced in their map instead of changed in place.
- PhoneDb: SQLite's REAL stock is exact ten-thousandths, so quantities with more than four decimals are not modelled; pulls that overwrite stock, the fields of items other than stock, `discardSale` and the server-side cancel, which are outside the stock law.
- RateLimit: the mutex; calls are one after the other.
- LeadImport: lower-casing, number and date parsing are parameters (the database's `lower` and Go's are taken to agree), lengths are in characters, and messages are reduced to their kind.
- HTTP, UI, SQL text, PDF, payments providers, tax rate tables, CRM stages and numbering: plumbing, or settled by reading one branch.
