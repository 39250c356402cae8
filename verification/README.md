# ChaanBean, verified

ChaanBean recovers overdue invoices: it keeps a ledger, decides whom to contact and how, places calls and sends
messages, and records what came back. This project is a model of its decision and bookkeeping code in Dafny, with
proofs of what that code promises over unbounded histories. One module stands for one source file, or for a protocol
that several files carry out together; code that changes rows step by step is a class or a method proved against a
specification function, and the promises are lemmas about those functions. What a specification function decides is
told once more by the columns it reads, mostly in a lemma whose name ends in `Says`, `Means` or `Exactly`.

| part | modules |
|---|---|
| the event-sourced call: log, projection, outcome, reconciler, rebuild, keypress gate, opt-out | `CallProjection`, `Outcomes`, `Reconciler`, `Rebuild`, `AriConsumer`, `Deliveries`, `OptOut` |
| the ledger: planner, tables, overlapping transactions, statements, accounts | `Allocation`, `Ledger`, `PaymentTransactions`, `Statements`, `Accounts` |
| the decision, and the protocol that keeps the caps under concurrent workers | `Policy`, `Decisions`, `RowOrder`, `Dispatch`, `Budgets`, `Recounts` |
| the rate limiter | `TokenBucket` |
| amounts spoken, printed and read | `NumberWords`, `AmountText`, `AmountParsing` |
| smaller protocols | `Origination`, `MessageProjection`, `CreditFactors`, `CreditLimit` |
| what they promise together | `Guarantees` |
| shared | `Common`, `Sorting`, `Text` |

Times are integers (microseconds where a day or an hour matters) and days are floor division. A table is a sequence
whose index is the row's identity. An exception inside a transaction leaves the rows as they were. A timestamp column
filled in by the server is the decision's own instant. Money is in paise. Shares of a score, and the tokens of the
bucket, are exact reals.

To check it: `dafny verify dfyconfig.toml`.

## Where the code does less than its comments say

Each of these is proved; where there is an exact condition under which the comment does hold, so is that.

- A call's status is not independent of the order of its events, and a rebuild does not always give back the live row
  (backend/app/calls/projection.py:13-20, 130-131, 204-209). The times and the yes-or-no facts always come back. The
  status is the same for every order of a log exactly when the log is confluent (`StatusOrderIndependentExactly`) and
  comes back from a rebuild exactly when the occurrence order decides as the arrival order did
  (`RebuildReproducesExactly`, `RebuildCanChangeStatus`).
- A call closed from a record is rebuilt without it: the status written over the projection comes back only for
  ANSWERED and NO ANSWER, never for BUSY, FAILED or CONGESTION (`RecordComesBackExactly`).
- A duration is fixed by the first reading (`DurationAgreesExactly`); `DurationKeepsItsFirstReading` is an input.
- `apply_outcome` counts again each time it runs over one outcome: `OutcomeRepeatsExactly`, `OutcomeCountsEveryTime`.
- The key that tells two events apart leaves out the digit pressed (`DigitIsNotInKey`), so of two keys pressed within
  one timestamp the second is lost: a 1 leaves no acknowledgement behind the message it plays, a 9 withdraws no consent
  (`SharedKeyLosesKeypress`). What is recorded, exactly: `KeypressesRecordedExactly`, `ConsentWithdrawnExactly`.
- A machine that answers counts as contact when its verdict comes after the message (`LateMachineIsCounted`); when a
  call adds no delivery is `AddsNoDeliveryExactly`.
- A keypress delivered again changes no row but plays the message again: `PlaysExactly`, `RedeliveredPressPlaysTwice`.
- An attempt refunded as the carrier's fault counts again after a later end (`CountsAgainExactly`,
  `CongestionCountsAgain`), and is then not held against the caps (`RecountExceedsExactly`): a cap of one a day can hold
  two (`CapOfOneHoldsTwo`).
- Two credit notes on one invoice that overlap do not see each other. Each passes the check against over-crediting, and
  the later write hides the earlier note: `NoteOverlooksExactly`, `OverlappingNotesExactly`. Payments, which lock their
  rows, and notes that do not overlap keep the books in balance: `EveryRunBalances`, `SerialNotesBalance`.
- A credit note leaves the account of the invoice it settles up for contact: `CreditedIsChasedExactly`.
- Clearing a dispute makes an account overdue whether or not its debt is due (`OverdueExactly`); contact then still waits
  for the ladder's first day (`DebtIsDueExactly`).
- The times of a message are those of the first webhook of their kind, which need not be the earliest:
  `TimesIgnoreOrderExactly`.
- The rate limit does not hold "across any window": one second can hold twice the rate (`OneSecondHoldsTwiceTheRate`).
- A receipt that quotes a settled invoice raises instead of resting on account: `ReceiptIsBankedExactly`.
- An invoice that was voided and then disputed comes back for contact when the dispute is cleared, if its account still
  holds a balance: `ClearedVoidIsChasedExactly`.
- Money that rests on a voided invoice separates the statement from the position: `StatementAgreesWithPosition`.
- A negative amount is printed in a form the parser refuses: `PrintThenReadExactly`.
- `5 cr` is read as five rupees, neither as crore nor as credit: `CreditSuffixExactly`.
- Declaring a small debt elsewhere raises a score and a limit: `FirstDebtRaisesScoreExactly`, `DeclaringADebtCanBuyMore`.

## Model

| member | source | states |
|---|---|---|
| CallProjection.Call.Advance | backend/app/calls/projection.py:116-123 | the status moves only to an equal or higher rank, and one terminal status never replaces another |
| CallProjection.Call.Finalise | backend/app/calls/projection.py:178-201 | how a destroyed channel ends: answered calls stay answered, the reconciler's own event says UNKNOWN, no cause says NO_ANSWER, any other cause goes by the table and an unlisted one is FAILED |
| CallProjection.Call.MarkEnded | backend/app/calls/projection.py:159-167 | the earliest end is kept, and the newest cause and SIP code that were given |
| CallProjection.Call.ApplyEvent | backend/app/calls/projection.py:130-175 | one event on the row is the specification's fold step, the duration filled in once |
| CallProjection.Call.RecordEvent | backend/app/calls/projection.py:75-113 | an event enters the log exactly when its source and key are not there yet |
| CallProjection.Call.Ingest | backend/app/calls/projection.py:232-256 | append and project as one step: a redelivered event changes neither log nor row |
| CallProjection.Call.Rebuild | backend/app/calls/projection.py:204-229 | the row becomes the fold of the replayed log from a cleared row, the log untouched |
| CallProjection.LiveIsFoldOfLog | backend/app/calls/projection.py:232-256 | for any arrivals the live row is the fold of its own log, which is the arrivals without redeliveries |
| CallProjection.FoldFacts | backend/app/calls/projection.py:126-170 | answered, playback and ended times are the minimum over the log, played, acknowledged and opted out are existence in it, whatever the order of the fold |
| CallProjection.DurationKnown | backend/app/calls/projection.py:172-173 | a duration is recorded exactly when both answer and end are known, and it is never negative |
| CallProjection.FactsIgnoreOrderAndRedelivery | backend/app/calls/projection.py:130-175 | two deliveries of the same events, in any orders and with any repetitions, leave the same facts, equal to their closed form over the log |
| CallProjection.RebuildKeepsFacts | backend/app/calls/projection.py:204-229 | a replay of the log in any order gives back every fact of the live row |
| CallProjection.StatusSays | backend/app/calls/projection.py:61-73 | the status after one event, by kind, cause and origin: an ended call keeps its own, 16 is answered, 17 busy, 18 and 19 unanswered, any other cause failed |
| CallProjection.FoldForward | backend/app/calls/projection.py:35-58 | over any events the rank never falls, a terminal status never changes, and an answered open call never ends terminal |
| CallProjection.ApplyTwice | backend/app/calls/projection.py:130-131 | applying an event twice running is applying it once |
| CallProjection.StatusReadsOnlyRelevant | backend/app/calls/projection.py:130-175 | the status depends on nothing but the subsequence of answers, machine verdicts and hangups; all other events may be moved or dropped |
| CallProjection.StatusOrderIndependentExactly | backend/app/calls/projection.py:35-58 | the status is the same for every order of a log if and only if the log is confluent: no closing hangup beside an answer or a contradicting hangup, and no machine verdict beside an answer or a normal clearing |
| Rebuild.DurationAgreesExactly | backend/app/calls/projection.py:172-173 | the recorded duration is that of the first moment both answer and end were known; it is the seconds between the row's own times if and only if that reading and the whole log span as many seconds |
| CallProjection.RebuildCanChangeStatus | backend/app/calls/projection.py:204-229 | the shortest input for which a rebuild does not reproduce the row: a hangup that arrives before the answer it follows, live NO_ANSWER, rebuilt ANSWERED |
| Rebuild.FoldIsClosedForm | backend/app/calls/projection.py:126-201 | every column of the fold of any events, with no fold in it: times are minima, facts are existence, the status is the first closing hangup's when no answer comes before it and otherwise the last word said, causes are the last ones given |
| Rebuild.OrdersAgreeExactly | backend/app/calls/projection.py:15-18 | any two orders of events leave the same status if and only if they decide alike |
| Rebuild.RebuildReproducesExactly | backend/app/calls/projection.py:204-229 | over every run of origination, events, sweeps and reconnects the rebuild gives back the facts always; the status, the duration, the whole row if and only if the log, read in both orders and against the record a reconciler wrote, says the same of each |
| Rebuild.RecordComesBackExactly | backend/app/calls/reconciler.py:95-110 | a call dialled, lost and closed from its record is rebuilt as NO_ANSWER, so its status comes back if and only if the disposition is ANSWERED or NO ANSWER |
| Outcomes.SettleCap | backend/app/calls/outcomes.py:42-46 | whether the attempt still counts against the cap follows its classification; an outcome that cannot be classified is an exception and writes nothing |
| Outcomes.Debtor.Absorb | backend/app/calls/outcomes.py:48-83 | the debtor's rows after a classified attempt: level counters, number retired, consent withdrawn |
| Outcomes.ApplyOutcome | backend/app/calls/outcomes.py:39-99 | both together, or nothing at all when the outcome cannot be classified |
| Outcomes.CapSays | backend/app/policy/engine.py:541-581 | by the columns: an attempt is taken off the budget exactly when it ended unanswered with cause 34, 38 or 41; a blocked or cancelled call has no outcome |
| Outcomes.OutcomeSays | backend/app/calls/outcomes.py:48-83 | by the columns: a number is retired by cause 1 or 22, consent by an opt-out, and a message played to its end to a human who did not opt out is a delivery, anything else an attempt |
| AriConsumer.RetiredExactly | backend/app/calls/outcomes.py:48-56 | over every sequence of events a number is retired if and only if at some moment the call stood ended with cause 1 or 22 |
| Outcomes.OutcomeRepeatsExactly | backend/app/calls/outcomes.py:62-73 | a second run over the same outcome leaves phone, consent and ladder as they were if and only if the account has no escalation state |
| Outcomes.OutcomeCountsEveryTime | backend/app/policy/engine.py:607-617 | after any number of runs the ladder has counted exactly that many deliveries or attempts, and withdrawn consent and a retired number stay so |
| Deliveries.LadderCounts | backend/app/calls/outcomes.py:62-71 | after any events on an open call the ladder has gained one delivery for every event that left the call delivered, and counts the other events with an outcome since the last of those |
| Deliveries.AddsNoDeliveryExactly | backend/app/calls/outcomes.py:16-19 | a call adds no delivery, whatever it ends as, if and only if at no moment its log had an answer for its last word, the message played to its end and no opt-out |
| Deliveries.MachineFirstAddsNone | backend/app/calls/outcomes.py:16-19 | so it adds none when the machine's verdict is in before the message has played to its end, and stays |
| Deliveries.LateMachineIsCounted | backend/app/calls/outcomes.py:16-19 | with the verdict after the message, a call that ends ANSWERED_MACHINE has added a delivery |
| Reconciler.ResolveFromCdr | backend/app/calls/reconciler.py:54-112 | a call resolved from its CDR is the projection of the CDR's event, then the status the disposition names, unless that is ANSWERED, which leaves the projection's own |
| Reconciler.ResolveLost | backend/app/calls/reconciler.py:126-137 | a call with no evidence is closed by the reconciler's own event |
| Reconciler.ReconcileCall | backend/app/calls/reconciler.py:115-140 | a call is left alone exactly when its channel is up; otherwise it is resolved, by CDR first |
| Reconciler.Sweep | backend/app/calls/reconciler.py:143-162 | each call past the cutoff and in flight is reconciled and reported, every other call is untouched, on a list of distinct objects updated in place |
| Reconciler.ReconnectDiff | backend/app/calls/reconciler.py:165-178 | after a reconnect exactly the in-flight calls missing from the live channels are resolved |
| Reconciler.ResolvedIsAnOutcome | backend/app/calls/reconciler.py:54-112 | resolving never lowers the rank and never yields SCHEDULED, BLOCKED or CANCELLED |
| Reconciler.StepKeeps | backend/app/calls/reconciler.py:46-51 | originate, event, sweep and reconnect each keep the reachable-state invariant, never lower the rank and never change a terminal status |
| Reconciler.RunIsForwardOnly | backend/app/calls/reconciler.py:109-137 | over every run of originate, event, sweep and reconnect steps, the rank at any moment is no higher than at any later one, and a terminal status stays for good |
| Reconciler.SweepClosesEveryLostCall | backend/app/calls/reconciler.py:143-162 | after a sweep no reachable call past the cutoff and without a live channel is still dialling; live and recent calls are untouched |
| Reconciler.SweepIsIdempotent | backend/app/calls/reconciler.py:143-162 | a second sweep over the same channels and records, at any later clock reading and so with any other cutoff, changes no column and no log of a call the first one closed, and treats every other call as a first sweep would |
| Reconciler.PassesTouchExactly | backend/app/calls/reconciler.py:143-178 | by the columns: a sweep resolves exactly the calls dialling or answered, not known to be up, and originated or else scheduled by the cutoff; a reconnect exactly those dialling or answered and not known to be up; every other call is left as it is |
| Reconciler.RecordSays | backend/app/calls/reconciler.py:85-112 | what a record makes of a lost call, by its disposition and its end |
| Reconciler.LostCallEndsUnknownAndCounts | backend/app/calls/projection.py:187-193 | closed with no CDR, no answer and no cause, a reachable call ends UNKNOWN and still spends the attempt |
| AriConsumer.OnStasisStart | backend/app/telephony/flow.py:173-181 | an unacknowledged L3 call hears the gate prompt and nothing else |
| AriConsumer.OnDtmf | backend/app/telephony/flow.py:184-188 | keypress 1 on an L3 call plays the message, keypress 9 hangs up, anything else does nothing |
| AriConsumer.OnPlaybackFinished | backend/app/telephony/flow.py:191-197 | an unacknowledged L3 call is not hung up when the prompt ends |
| AriConsumer.Handle | backend/app/telephony/events.py:123-171 | append, project, act, then outcome: the commands issued and the rows left, or the rows rolled back and only the commands left |
| AriConsumer.GateHolds | backend/app/telephony/flow.py:173-197 | for every sequence of events on an L3 call, anything but the prompt is commanded to play only after a keypress 1 was handled, and a hangup only after a 1 or a 9 |
| AriConsumer.AllRolledBack | backend/app/telephony/events.py:163-171 | on a call already blocked or cancelled every event is rolled back by the exception of its outcome |
| AriConsumer.KeypressesRecordedExactly | backend/app/calls/projection.py:147-154 | over every sequence of events on any other call, the acknowledgement and the opt-out are on the row if and only if they were before, or a 1 or a 9 was handled as the first event of its key |
| AriConsumer.PlayedIsAcknowledgedExactly | backend/app/telephony/flow.py:184-188 | a keypress 1 on an L3 call always plays the message; the row carries its acknowledgement if and only if that keypress, or an earlier one, was the first of its key |
| AriConsumer.OpenLevelsExactly | backend/app/telephony/flow.py:173-197 | over every sequence of events on an L1 or L2 call the staged message plays exactly as often as a start is handled, the call is hung up exactly as often as a playback ends or a 9 is pressed, and nothing else is commanded |
| AriConsumer.GateExactly | backend/app/telephony/flow.py:173-197 | on an L3 call the gate prompt plays exactly for every answer before the acknowledgement, and the call is hung up exactly for every 9 and every playback that ends after it |
| AriConsumer.PlaysExactly | backend/app/telephony/events.py:123-164 | over every sequence of events on an L3 call the message plays once for each distinct keypress 1, once more for each one delivered again, and once for each answer handled after an acknowledgement |
| AriConsumer.PlaysOncePerPressExactly | backend/app/telephony/events.py:123-164 | so it plays once per keypress if and only if none is delivered again and no answer comes after one |
| AriConsumer.RedeliveredPressPlaysTwice | backend/app/telephony/events.py:138-164 | one keypress delivered twice changes the row once and plays the message twice |
| AriConsumer.KeySays | backend/app/telephony/events.py:70-78 | the derived key is the first 128 characters of type, timestamp, channel and playback |
| AriConsumer.KindsHaveOwnKeys | backend/app/telephony/events.py:70-78 | messages of two kinds never share a key, whatever else they share |
| AriConsumer.DigitIsNotInKey | backend/app/telephony/events.py:70-78 | two keypresses that differ only in their digit have the same derived key |
| AriConsumer.SharedKeyLosesKeypress | backend/app/telephony/events.py:70-78 | so of two keys pressed within one timestamp only the first is recorded: a 1 after a 9 plays the message and leaves no acknowledgement, a 9 after a 1 hangs up and withdraws no consent |
| AriConsumer.OptOutExactly | backend/app/telephony/events.py:164-171 | consent is withdrawn if and only if it was before, or the call has an outcome and a 9 was handled as the first event of its key |
| OptOut.PassRunsOutcomeExactly | backend/app/calls/reconciler.py:143-178 | a sweep or a reconnect runs the outcome of exactly the calls it resolves, once each, and leaves the rows of every other debtor |
| OptOut.ConsentWithdrawnExactly | backend/app/calls/outcomes.py:57-61 | the same over every run of origination, events, sweeps and reconnects, whichever of them gives the call its outcome, before or after the 9 |
| OptOut.WithdrawnForGood | backend/app/calls/outcomes.py:57-61 | consent withdrawn at any moment of a run is withdrawn at every later one |
| Allocation.PlanAllocation | backend/app/trade/allocation.py:84-144 | the loop over instructions, the exact match and the oldest-first loop together compute the planner's specification, errors included |
| Allocation.UninstructedPlan | backend/app/trade/allocation.py:124-141 | without instructions: an amount owed on exactly one invoice pays that one, whatever its age; otherwise no share is for an invoice with a smaller due date, issue date and number than an earlier share's, every open invoice with a smaller one than a paid invoice's is paid in full, and all are when money is left over |
| Allocation.RefusalNamesFirstFault | backend/app/trade/allocation.py:100-119 | refused instructions: the error is that of the first instruction that is not positive, not for one of the invoices, or above its balance; with none such, the total is above the payment |
| Allocation.GreedyShape | backend/app/trade/allocation.py:132-141 | at most one invoice is part paid, it is the last one reached, and money is left over only if every open invoice is covered |
| Allocation.InstructedPlan | backend/app/trade/allocation.py:102-122 | instructions are accepted exactly when each names an invoice of the buyer within its balance and together they fit the payment, and then carried out to the letter |
| Allocation.PlansAreSound | backend/app/trade/allocation.py:84-144 | any accepted plan conserves the amount and gives each invoice it names a positive share within its balance, once |
| Allocation.PlanIgnoresRowOrder | backend/app/trade/allocation.py:78-81 | the plan is the same for every order the rows are read in, when no two share due date, issue date and number |
| Ledger.LedgerTables.SumAllocations | backend/app/trade/allocation.py:147-155 | the sum of all allocations on an invoice |
| Ledger.LedgerTables.SumCreditNotes | backend/app/trade/allocation.py:158-166 | the sum of all credit notes on an invoice |
| Ledger.LedgerTables.RecomputeInvoice | backend/app/trade/allocation.py:169-194 | balance and status derived from the rows; refused, with nothing written, exactly when more is settled than billed |
| Ledger.LedgerTables.InvoiceRefs | backend/app/trade/allocation.py:197-223 | what the planner is told of each payable row |
| Ledger.LedgerTables.ApplyPayment | backend/app/trade/allocation.py:226-252 | the tables after a payment are the specification's, and after any refusal they are the tables before |
| Ledger.LedgerTables.ApplyCreditNote | backend/app/trade/allocation.py:255-278 | the same for a credit note, whose row goes with its refusal |
| Ledger.PostingKeepsBalance | backend/app/trade/allocation.py:226-252 | posting a sound plan for a fresh payment never trips the over-settled guard and leaves every invoice at net less allocations less credits, and every payment at its allocations plus the rest |
| Ledger.OldestDebtsFirst | backend/app/trade/allocation.py:124-141 | by the columns of the ledger: an uninstructed payment goes only to invoices of the buyer neither voided nor written off; all of it to one that owes just that much, or else in the order of due date, issue date and number, every invoice ahead of one that gets anything being paid to the full |
| Ledger.RestatedSays | backend/app/trade/allocation.py:169-194 | what a recomputation writes: refused when more is settled than billed; paid, part paid or open by what is left; written off and voided kept |
| Ledger.CreditSays | backend/app/trade/allocation.py:255-278 | a note is refused for a missing invoice, or when it and what is settled come to more than was billed, and for nothing else |
| Ledger.ApplyPaymentKeepsBalance | backend/app/trade/allocation.py:226-252 | a payment is refused only by the planner, and balanced books stay balanced either way |
| Ledger.CreditNoteKeepsBalance | backend/app/trade/allocation.py:255-278 | a credit note is applied exactly when it fits what the live invoice still owes, and balanced books stay balanced either way |
| PaymentTransactions.GuardFiresExactly | backend/app/trade/allocation.py:179-184 | on any books, the over-settled guard fires at a commit if and only if some planned share exceeds what its invoice has left, and what is committed to balanced books is balanced |
| PaymentTransactions.PublishingLeavesOthers | backend/app/trade/allocation.py:241-252 | publishing a plan leaves every invoice it does not name as it was |
| PaymentTransactions.StepKeeps | backend/app/trade/allocation.py:197-278 | new invoices, the begin, commit and rollback of payments, and the read, commit and rollback of credit notes, each where a row lock or the note's foreign key lets it happen, keep the tables sound, no invoice showing less than it has left, every planned payment fitting, and every note's reading no more than what is settled |
| PaymentTransactions.EveryRunBalances | backend/app/trade/allocation.py:169-278 | at every moment of every run of overlapping payments and credit notes: every payment is its allocations plus what is on account; no live invoice shows less than it has left, and it is in balance if and only if it shows no more; no payment trips the over-settled guard at its commit |
| PaymentTransactions.SerialNotesBalance | backend/app/trade/allocation.py:255-278 | as long as no two credit notes overlap on one invoice, every invoice is in balance at every moment of every run |
| PaymentTransactions.NoteOverlooksExactly | backend/app/trade/allocation.py:255-278 | over every run, a note committed leaves its live invoice showing too much by exactly the notes committed on it since this one read, so in balance if and only if there were none; the invoice is over-credited if and only if the note and those come to more than it had left at the read |
| PaymentTransactions.OverlappingNotesExactly | backend/app/trade/allocation.py:259-278 | two notes on one invoice that each fit it and overlap are both accepted and always leave it showing the first one's amount too much; it is over-credited if and only if together they do not fit, and the next recomputation goes through, and balances it, if and only if they do |
| PaymentTransactions.TogetherOnlyIfBothFit | backend/app/trade/allocation.py:197-210 | what the row lock is for: two plans on one invoice made without seeing each other can both commit if and only if both shares fit the balance together |
| PaymentTransactions.NoteLeavesRoomExactly | backend/app/models/trade.py:296-296 | what the lock of a note's foreign key is for: were a note accepted between a payment's read and its commit, the payment could commit if and only if note and share fit the balance together |
| Statements.Movements | backend/app/trade/statements.py:68-115 | invoices, payments and notes of the buyer in the period, sorted by date, kind and reference |
| Statements.MovementsExactly | backend/app/trade/statements.py:68-115 | by the columns of the tables: as many lines as rows of the buyer in the period, each line a row's and each row's there, invoices as debits, payments and notes as credits, in the order of day, kind and reference |
| Statements.BalanceAsOf | backend/app/trade/statements.py:118-121 | debits less credits of every movement up to the day |
| Statements.Generate | backend/app/trade/statements.py:124-141 | refused exactly for a reversed period: opening plus movements is closing, so the imbalance exception never fires |
| Statements.StatementReconciles | backend/app/trade/statements.py:124-141 | opening, movements and closing agree on any books at all |
| Statements.AllocationsCountOnce | backend/app/trade/allocation.py:241-246 | summed by invoice or summed by payment, one buyer's allocations come to the same |
| Statements.StatementAgreesWithPosition | backend/app/trade/statements.py:118-121 | on balanced books the statement balance is what invoices, payments and notes say is owed if and only if no voided invoice of the buyer carries a payment or credit; otherwise it differs by exactly that money |
| Statements.StatementsChain | backend/app/trade/statements.py:124-141 | the closing of one period is the opening of the next, and the movements of two adjoining periods are those of both together |
| Accounts.AccountTable.SyncFromInvoice | backend/app/trade/accounts.py:30-92 | the account after a sync is the specification's: created or brought in step with its invoice, a dispute kept, the ladder stopped or softened |
| Accounts.SyncedSays | backend/app/trade/accounts.py:62-92 | by the columns: out of dispute and not written off, settled without a balance, with one overdue if and only if the due date has come, and else current; settling clears the review flag, a part payment sets attempts and last contact back and keeps the level |
| Accounts.DisputeSays | backend/app/trade/accounts.py:127-155 | a dispute raises the review flag and nothing else; clearing one makes the account overdue with a balance and settled without |
| Accounts.AmendSays | backend/app/ingestion/reconcile.py:213-239 | an upstream amount changes nothing under recovery but the review flag, nothing when it is negative or under what is settled, and otherwise becomes the invoice's and is synced |
| Accounts.AccountTable.RaiseDispute | backend/app/trade/accounts.py:127-142 | a dispute stops the ladder |
| Accounts.AccountTable.ClearDispute | backend/app/trade/accounts.py:145-155 | clearing one returns the account to the ladder by its own balance |
| Accounts.AccountTable.SyncEach | backend/app/ingestion/reconcile.py:306-312 | after a payment every invoice it touched has its account synced, and no other |
| Accounts.StepKeeps | backend/app/ingestion/reconcile.py:152-317 | new and imported invoices, receipts, credit notes, corrections, voiding and disputes each leave every live invoice's account ahead of it by exactly the credit notes since its last sync |
| Accounts.AccountShowsBalanceExactly | backend/app/trade/accounts.py:30-69 | at every moment of every run an account shows its live invoice's balance if and only if no credit note on it waits for a sync |
| Accounts.OverdueMeansOwed | backend/app/trade/accounts.py:62-92 | over every run an OVERDUE account belongs to a live invoice, provided no dispute was raised on a voided one, and the invoice still has a balance if and only if the credit notes waiting for a sync come to less than the account shows |
| Accounts.OverdueExactly | backend/app/trade/accounts.py:62-92 | over every run an account is OVERDUE if and only if a sync found its balance due, or a dispute on it was cleared with a balance, and no sync, voiding or dispute has settled its status since |
| Accounts.SyncedIsDue | backend/app/trade/accounts.py:77-80 | and in the first case the due date it shows had come by the clock of that sync |
| Accounts.CreditedIsChasedExactly | backend/app/trade/allocation.py:255-278 | a credit note syncs no account: on an OVERDUE account in step it leaves a settled invoice up for contact if and only if it is for the whole balance |
| Accounts.ClearedVoidIsChasedExactly | backend/app/trade/accounts.py:145-155 | void, dispute, clear: the voided invoice is up for contact again exactly when its account still held a balance |
| Accounts.ReceiptIsBankedExactly | backend/app/ingestion/reconcile.py:293-312 | a receipt is banked exactly when it is positive and the invoice it quotes, if any, is payable and still owes something; quoting a settled one raises |
| Policy.SelectChannel | backend/app/policy/engine.py:337-385 | the loop over preferred channels with its three flags computes the ladder's specification |
| Policy.AccountChosen | backend/app/policy/engine.py:245-283 | by the columns: an account is chosen exactly when one is overdue by the ladder's first whole days, and no such account is further up the ladder, or at its level longer overdue in days, or as long overdue and owing more; without one, the reason is a dispute when all are disputed or closed and one is disputed, closed when all are, and otherwise not overdue |
| Policy.PhoneChosen | backend/app/policy/engine.py:286-316 | by the columns: a number is chosen exactly when one is valid, clear of the registry and scrubbed within seven days; each refusal if and only if its own columns: none valid, all valid ones on the registry, one never checked, only old scrubs |
| Policy.ChosenIsFirstDialable | backend/app/policy/engine.py:286-316 | the number chosen is the first in row order of the dialable ones of lowest priority |
| Policy.ClimbMeans | backend/app/policy/engine.py:349-385 | the first usable channel is taken; with none, opt-out is reported before cap, cap before missing address, and that before missing template |
| Decisions.ChannelChosen | backend/app/policy/engine.py:337-385 | by the columns: a channel is chosen exactly when a rung is enabled, worded, not opted out of, reachable and below its cap; otherwise an opt-out is reported before a cap, a cap before a missing address, and that before missing words |
| Decisions.ChosenIsReachable | backend/app/policy/engine.py:504-516 | a channel that is chosen can be reached, so the later check for a missing number can never fire |
| Policy.LastContactIsLatest | backend/app/policy/engine.py:484-490 | the cooldown is measured from the latest contact on any account |
| Policy.WordsExactly | backend/app/policy/engine.py:388-421 | the words chosen are the first approved fitting ones in row order, else the first fitting ones; L3 is refused if and only if no fitting words are approved, SMS if and only if the chosen ones are unregistered |
| Decisions.ChosenIsFirstRung | backend/app/policy/engine.py:349-385 | the channel chosen is the one usable rung below all other usable ones on the level's ladder |
| Decisions.LevelMeans | backend/app/policy/engine.py:201-239 | the level to contact at and whether a human looks first, by whole days, attempts, balance and deliveries |
| Policy.ChosenIsFirstSeverest | backend/app/policy/engine.py:245-283 | the account chosen is the first in row order of the eligible accounts that no other exceeds in level, age and size |
| Decisions.EvaluateIsFirstFailingGate | backend/app/policy/engine.py:424-535 | contact is allowed exactly when every gate passes, each told by the columns of the context; otherwise the reason is that of the first failing gate in the fixed order, the account's gates being those of the first of the worst accounts that are due |
| RowOrder.DecisionIgnoresRowOrderExactly | backend/app/policy/engine.py:245-283 | the decision is the same for every order of the account rows if and only if it would be the same about each of the most severe eligible accounts |
| Decisions.ConsentReasonExactly | backend/app/policy/engine.py:431-436 | in an active campaign a contact is refused for want of consent if and only if consent was withdrawn |
| Decisions.AllowedMeans | backend/app/policy/engine.py:424-535 | everything an allowed contact says: the account, its level, the lowest usable rung, the words chosen for it, the number or address it goes to, and a keypress exactly at L3 |
| Decisions.AllowedIsDialable | backend/app/policy/engine.py:291-307 | no contact by SMS, WhatsApp or voice goes to a number that is invalid, on the registry, unchecked, or scrubbed more than seven days ago |
| Decisions.AllowedKeepsToTheLadder | backend/app/policy/engine.py:201-239 | the account is overdue, and the level its own or one up, L3 only off a delivered contact and a balance at the floor |
| Dispatch.CountSeesEverythingSpent | backend/app/scheduler/dispatch.py:86-109 | under the buyer's lock the two counting queries miss no attempt that was made and not refunded |
| Dispatch.AttemptsAreCharged | backend/app/scheduler/dispatch.py:86-109 | what is counted is the number of rows of this buyer, since the moment, that count, are not void, and are visible to the transaction |
| Budgets.RefusalIsNotCounted | backend/app/scheduler/dispatch.py:86-109 | a refusal, and an attempt withdrawn before its commit, change no count of any buyer in the eyes of any worker |
| Budgets.AttemptIsCounted | backend/app/scheduler/dispatch.py:86-109 | an attempt counts once, against its own buyer, from its own moment on; before its commit for its own worker only, and after it for all |
| Budgets.DecisionReadsOwnRows | backend/app/scheduler/dispatch.py:86-109 | adding and removing rows of other buyers, or older than seven days, changes neither the counts nor the decision |
| Budgets.CapRefusalIsOwn | backend/app/policy/engine.py:473-482 | over every run, a refusal for a daily or weekly cap means that as many of the buyer's own attempts count in the last day or seven days as the cap allows |
| Dispatch.StepKeeps | backend/app/scheduler/dispatch.py:76-109 | lock, count and decide, insert, commit, roll back, originate, refund: each step of any worker keeps the caps |
| Dispatch.CapsHoldInEveryWindow | backend/app/scheduler/dispatch.py:299-553 | however the workers interleave, every window of a day or a week, wherever it starts, holds at most as many of a buyer's attempts as the cap of the campaign that inserted the last of them; attempts that have counted throughout |
| Dispatch.OnlyRecountsExceedCaps | backend/app/calls/outcomes.py:42-47 | of all that counts in such a window, no more exceeds the cap than was refunded and counted again since |
| Dispatch.RecountExceedsExactly | backend/app/calls/outcomes.py:42-47 | in any run, an outcome that makes an attempt count takes a window past the cap of the campaign that inserted its last attempt if and only if the attempt did not count before and the window was at that cap |
| AriConsumer.CountsAgainExactly | backend/app/calls/outcomes.py:39-46 | one more event makes a refunded attempt count again if and only if it is an end not seen before whose cause is given and is not the carrier's fault |
| AriConsumer.CongestionCountsAgain | backend/app/calls/outcomes.py:39-46 | it happens: a dialled call that ends in congestion is refunded, and the end of its stasis makes it count |
| Recounts.CapOfOneHoldsTwo | backend/app/scheduler/dispatch.py:299-553 | so there is a run under a cap of one a day that ends with two attempts counting in the day, its two outcomes being what those two events make of the call |
| Recounts.PlainIsAllowed | backend/app/policy/engine.py:424-535 | and the policy allows a contact under that cap |
| Dispatch.RunningKeeps | backend/app/scheduler/dispatch.py:299-553 | any steps taken one after the other, a whole pass among them, keep the caps |
| Dispatch.Database.LockBuyer | backend/app/scheduler/dispatch.py:76-83 | the transaction gains the buyer's advisory lock |
| Dispatch.Database.CountAttempts | backend/app/scheduler/dispatch.py:86-109 | the number of rows of this buyer, since the moment, that count and this transaction can see |
| Dispatch.Database.DispatchBuyer | backend/app/scheduler/dispatch.py:299-553 | every way through a pass that raises nothing, refused, stopped short or carried out, is a run of the protocol's steps; only a contact that goes out leaves a row that counts, committed, with every lock given up |
| Dispatch.Database.DispatchSafely | backend/app/scheduler/tick.py:86-95 | so is a pass that raises and is rolled back: raised before its commit it leaves none of its rows and no lock, raised after it leaves the attempt committed and counting |
| TokenBucket.Store.Script | backend/app/scheduler/throttle.py:41-69 | one script call: refill, grant exactly when a whole token is there, store |
| TokenBucket.Store.AcquireRate | backend/app/scheduler/throttle.py:94-110 | an unreachable store refuses and changes nothing; otherwise burst is one second's worth |
| TokenBucket.ExpiryIsInvisible | backend/app/scheduler/throttle.py:66-68 | request by request, the bucket with its expiry answers as one that is never forgotten |
| TokenBucket.WindowBound | backend/app/scheduler/throttle.py:47-64 | in any window of any length, wherever it starts, at most burst plus rate times length are granted |
| TokenBucket.WorstWindowExactly | backend/app/scheduler/throttle.py:47-64 | a ceiling holds in every window of a given length if and only if floor(burst + rate * length) is within it; the worst window is reachable |
| TokenBucket.OneSecondHoldsTwiceTheRate | backend/app/scheduler/throttle.py:94-105 | as configured, one second can hold twice the configured rate and no more, although the comment says the limit holds across any window |
| NumberWords.SplitAtSpace | backend/app/render/numbers.py:51-72 | words put together with a space are heard as the words of each in turn |
| NumberWords.CompoundMeans | backend/app/render/numbers.py:34-38 | a hyphened ten and unit is one word and means their sum |
| NumberWords.TwoDigitsHeard | backend/app/render/numbers.py:34-38 | every number below a hundred is heard as itself |
| NumberWords.ThreeDigitsHeard | backend/app/render/numbers.py:41-48 | so is every number below a thousand |
| NumberWords.BelowCroreHeard | backend/app/render/numbers.py:64-72 | lakh, thousand and hundred parts, present or absent, add up to what was said |
| NumberWords.CountHeard | backend/app/render/numbers.py:51-72 | counts of any size are recovered, crores of crores included |
| NumberWords.RupeesHeardAreSaid | backend/app/render/numbers.py:51-72 | a listener who knows only the words recovers every integer, of either sign, from its words |
| NumberWords.PaiseHeardAreSaid | backend/app/render/numbers.py:75-89 | and every amount to the paisa |
| NumberWords.SpokenAmountsDiffer | backend/app/render/numbers.py:51-89 | two amounts are spoken alike if and only if they are equal |
| AmountText.DecimalHasValue | backend/app/render/numbers.py:92-97 | the digits of a number stand for the number |
| AmountText.GroupIndian | backend/app/render/numbers.py:92-105 | the loop that takes pairs off the head computes three digits at the end and pairs before them |
| AmountText.GroupingKeepsDigits | backend/app/render/numbers.py:92-105 | without its commas the grouped text is the digits again |
| AmountText.CommasEveryThird | backend/app/render/numbers.py:92-105 | from the right, every third character is a comma and all the others are digits |
| AmountParsing.NormaliseAmount | backend/app/ingestion/normalise.py:111-174 | the step-by-step rewriting of text and sign computes the parser's specification, refusals included |
| AmountParsing.IndianGroupsExactly | backend/app/ingestion/normalise.py:29-29 | the Indian pattern accepts exactly what the printer prints for six digits or more |
| AmountParsing.WesternGroupsExactly | backend/app/ingestion/normalise.py:30-30 | the Western pattern accepts exactly a comma before every third digit from the right, with at least one |
| AmountParsing.PartsReadExactly | backend/app/ingestion/normalise.py:154-171 | a number is refused exactly when its integer part is neither digits alone nor grouped in one of the two ways, or what follows the point is not digits or more than two; one digit there is tens of paise |
| AmountParsing.UnitsAreRead | backend/app/ingestion/normalise.py:32-33 | lakh and crore under all their names, with and without a space before them |
| AmountParsing.NumberIsRead | backend/app/ingestion/normalise.py:154-171 | any accepted integer part with any fraction behind it is read digit for digit |
| AmountParsing.NumeralIsRead | backend/app/ingestion/normalise.py:111-171 | text of digits, commas and points only reaches the number reader unchanged |
| AmountParsing.RupeeSignIsRead | backend/app/ingestion/normalise.py:132-132 | a rupee sign in front changes nothing |
| AmountParsing.RsIsRead | backend/app/ingestion/normalise.py:132-133 | nor does `Rs.` in front with `/-` behind |
| AmountParsing.MinusIsRead | backend/app/ingestion/normalise.py:135-141 | a minus in front makes the amount negative |
| AmountParsing.BracketsAreRead | backend/app/ingestion/normalise.py:127-130 | so do brackets around it |
| AmountParsing.DebitSuffixIsRead | backend/app/ingestion/normalise.py:145-145 | a debit suffix changes nothing |
| AmountParsing.CreditSuffixExactly | backend/app/ingestion/normalise.py:143-145 | a spaced `cr` behind an amount makes it negative if and only if it is written with commas; without commas the suffix is dropped, and is read neither as credit nor as crore |
| AmountParsing.FiveCroreIsReadAsFiveRupees | backend/app/ingestion/normalise.py:143-153 | the shortest example: `5 cr` is five rupees |
| AmountParsing.CroreWithoutSpaceIsRead | backend/app/ingestion/normalise.py:33-33 | without the space the same letters mean crore |
| AmountParsing.BodyIsRead | backend/app/ingestion/normalise.py:154-171 | the printed digits of any amount are read back to the paisa |
| AmountParsing.PrintThenReadExactly | backend/app/ingestion/normalise.py:122-171 | what is printed is read back unchanged for every amount from zero up, and refused for every negative one |
| Origination.Asterisk.Post | backend/app/telephony/fake.py:56-77 | an identity in use is answered with a conflict and never with a second channel, whatever becomes of request and response |
| Origination.Asterisk.Hangup | backend/app/telephony/fake.py:97-100 | the channel is gone, if it stood |
| Origination.ChannelsAreConserved | backend/app/telephony/fake.py:70-77 | in every possible history an identity is created as often as destroyed, and once more if its channel stands |
| Origination.Originate | backend/app/telephony/ari.py:119-160 | against any network, and whatever others post or hang up before each request and before the lookup: at most max_retries + 1 posts; an outcome is returned only with the channel standing; `created` only for the request that made it; one answered request is enough; the unknown error only after the last attempt |
| Origination.AtMostOneChannel | backend/app/telephony/ari.py:85-99 | between two moments of a history without a hangup an identity is created at most once, and not at all if it stood |
| Origination.OriginateTwice | backend/app/telephony/ari.py:97-99 | originating a call again, with other workers posting the same identity in between any two requests: exactly one channel is created if either attempt succeeds and nobody hangs up |
| Origination.OthersUntouched | backend/app/telephony/ari.py:101-109 | originating one call leaves every other channel alone |
| MessageProjection.Message.IngestEvent | backend/app/comms/service.py:185-234 | a webhook is appended and projected, or, with a key already in the log, changes nothing |
| MessageProjection.WebhookSays | backend/app/comms/service.py:185-234 | one webhook by the columns: nothing when its source and key are logged already; otherwise logged, its time filled in unless known, the status raised to its own, and a failure over everything |
| MessageProjection.LiveTells | backend/app/comms/service.py:212-231 | after any webhooks the status is the peak of the first status and the log, and each of sent, delivered and read is existence in the log |
| MessageProjection.LogCovers | backend/app/comms/service.py:200-220 | the log holds arrivals only, and the key of every arrival |
| MessageProjection.WebhookOrderDoesNotMatter | backend/app/comms/service.py:197-199 | for every order and every repetition of the same webhooks, and from every first status, the status and the three facts are the same |
| MessageProjection.FactsAreNeverCollapsed | backend/app/comms/service.py:35-35 | delivered and sent are recorded exactly when their own webhook arrived, never on account of another |
| MessageProjection.StatusOnlyRises | backend/app/comms/service.py:229-231 | over every run the rank never falls, and a failure is final |
| MessageProjection.TimesAreFirstArrivals | backend/app/comms/service.py:222-227 | each time is that of the first event of its kind in the log, unless it was set before |
| MessageProjection.TimesIgnoreOrderExactly | backend/app/comms/service.py:222-227 | a time is the same for every order of the webhooks if and only if it was set before them or all events of its kind carry one time |
| CreditFactors.EarnedWithinWeight | backend/app/intelligence/creditworthiness.py:206-207 | no more points are earned than there are to earn, so the score is a share between 0 and 100 |
| CreditLimit.CollectBlockers | backend/app/intelligence/creditworthiness.py:209-227 | exactly the blockers whose facts hold, each once |
| CreditLimit.SuggestLimit | backend/app/intelligence/creditworthiness.py:229-265 | the largest multiple of a thousand rupees that fits the request and every cap that applies, and nothing when none fits |
| CreditLimit.Assess | backend/app/intelligence/creditworthiness.py:129-291 | a score between 0 and 100; a blocker means REFER and no limit, otherwise the recommendation goes by the score; a limit within the request in thousands of rupees |
| CreditLimit.OwnFactorsSay | backend/app/intelligence/creditworthiness.py:149-176 | the points for what the ledger knows: thirty falling with the recovery risk, twelve rising to twelve settled invoices, ten falling from fifteen days to ninety, eight for promises kept |
| CreditLimit.DeclaredFactorsSay | backend/app/intelligence/creditworthiness.py:187-195 | the points for what is declared: ten rising to five years, six to three references, six for a registration |
| CreditLimit.TurnoverFactorsSay | backend/app/intelligence/creditworthiness.py:178-204 | the points for turnover, fourteen verified and seven not, rising to a month of it covering the request four times; and ten for debts, falling to three months' turnover |
| CreditLimit.DiscountsSay | backend/app/intelligence/creditworthiness.py:234-259 | a quarter of a month's turnover, at six tenths unverified, and the discounts for the risk band and the years of trading |
| CreditLimit.LimitSays | backend/app/intelligence/creditworthiness.py:229-265 | in exact arithmetic, without a blocker: the largest number of whole thousands of rupees within the request and within the discounted exposure less what is owed to you, and nothing when that leaves no room |
| CreditLimit.LimitIsWithinBounds | backend/app/intelligence/creditworthiness.py:263-272 | the limit is between zero and the request, a multiple of a thousand rupees, and zero with any blocker |
| CreditLimit.UnverifiedNeverBuysMore | backend/app/intelligence/creditworthiness.py:178-183 | in exact arithmetic, no application gets a larger limit with its turnover unverified than verified |
| CreditLimit.UnverifiedScoresHigherExactly | backend/app/intelligence/creditworthiness.py:178-183 | in exact arithmetic, its score is nevertheless higher unverified if and only if the turnover covers less than the other factors earn on average |
| CreditLimit.NegativeBuysNothing | backend/app/intelligence/creditworthiness.py:234-265 | a negative turnover buys nothing |
| CreditLimit.MoreDebtNeverBuysMore | backend/app/intelligence/creditworthiness.py:197-204 | owing more, here or elsewhere, never buys a larger limit once something is owed |
| CreditLimit.FirstDebtRaisesScoreExactly | backend/app/intelligence/creditworthiness.py:197-204 | in exact arithmetic, the first debt raises the score if and only if it is lighter than the score so far |
| CreditLimit.DeclaringADebtCanBuyMore | backend/app/intelligence/creditworthiness.py:197-204 | so declaring one paisa owed elsewhere raises a newcomer's limit from 37,000 to 46,000 rupees |
| Guarantees.PaidDebtIsNeverChased | backend/app/scheduler/dispatch.py:137-180 | whenever contact is allowed the invoice behind it is live, provided no dispute was raised on a voided one, and it has a balance if and only if the credit notes its account waits to be synced for do not cover what the account shows |
| Guarantees.DebtIsDueExactly | backend/app/scheduler/dispatch.py:137-180 | whenever contact is allowed the account was found due at its last sync, or a dispute on it was cleared with a balance; so a debt not yet due is contacted only in the second case, and never under a ladder that starts at or after the due date |
| Guarantees.AmountSpokenIsOwed | backend/app/scheduler/dispatch.py:156-173 | the balance a decision sees on a live invoice's account is what the ledger has outstanding if and only if no credit note on it waits for a sync |
| Guarantees.OptOutStopsContactExactly | backend/app/policy/engine.py:431-436 | over every run, an active campaign's decision is refused for want of consent if and only if the call has an outcome and a 9 was delivered as the first event of its key, and then every later decision is refused |

## Left out

- Web routes, schemas, the portal, authentication, audit, storage, speech engines, websockets, HTTP and Redis transport,
  and the tick loop: plumbing around the modelled code. SQL sessions are sequences and maps, row locks and the advisory
  lock are steps, commit is publication.
- Columns written but carried no further here: `next_action_at` and the retry delays, `last_outcome`, the times of the
  last contact and delivery (an input of a decision), the ladder's history entries, raw import records, sync counters,
  and explanations attached to factors and refusals.
- Phone number, date and name parsing, the XML, JSON and CSV connectors, and the pre-legal, tracing and reporting queries.
- Time zones: the local date, weekday and time of a decision are inputs.
- Hashes: an idempotency or lock key is an abstract function, and two buyers may share a lock key.
- The channel counters of `acquire_channel`: they are checked and raised in two steps, so they keep the caps only when
  used serially.
- Looking a payment up by its external reference before banking it: every payment of the ledger model is new.
- Writing an invoice off: nothing in the modelled files does it.
- CallProjection.FactsIgnoreOrderAndRedelivery: leaves out `duration_sec`, `hangup_cause` and `sip_response_code`, which
  depend on the order; what they are is in `Rebuild.FoldIsClosedForm`.
- Rebuild.RebuildReproducesExactly: events that occurred at the same time are replayed in arrival order, that is, no two
  of them were received at the same instant.
- PaymentTransactions.EveryRunBalances: credit notes are for the buyer of their invoice; a note's reads are one step, its
  update and commit another. The accounts of `Accounts` take a whole note as one step, so there no two overlap.
- Reconciler.Sweep: follows the call's own columns and log; the debtor's rows that the same `apply_outcome` writes are
  in `Outcomes` and `AriConsumer`, and a call that stays ANSWERED is counted again there by every sweep.
- Dispatch.CapsHoldInEveryWindow: counts attempts that are never blocked, cancelled or refunded; a refunded attempt can
  be counted again by a later event (backend/app/calls/outcomes.py:46-47), which `Dispatch.OnlyRecountsExceedCaps` adds.
- Dispatch.Database.DispatchBuyer: which of the things that can stop an allowed contact happens is an input; placing the
  call and handing the message to a provider, after the commit, are not part of it.
- Dispatch.Database.DispatchSafely: where an exception comes from is an input, at one of three places; a rollback gives
  up every uncommitted row of the worker, the refusals of buyers before it in the batch included.
- RowOrder.DecisionIgnoresRowOrderExactly: the order of account rows only, not that of numbers and words.
- AmountParsing.NormaliseAmount: lakh and crore amounts are returned unevaluated, because the code computes them in
  floating point; text is ASCII with the rupee sign, so other scripts' digits and spaces are not modelled.
- MessageProjection.WebhookOrderDoesNotMatter: leaves out the failure reason, which follows arrival, and the three times,
  for which see `MessageProjection.TimesIgnoreOrderExactly`.
- CreditLimit.Assess: the score is exact, where the code rounds it to two places before using it.
- CreditLimit.UnverifiedNeverBuysMore: in exact arithmetic, while the rounded score may come out at a hundredth
  unverified and at nothing verified, and so buy something; assumes that what a buyer owes you is not negative, as the
  only caller ensures.
- CreditLimit.UnverifiedScoresHigherExactly: in exact arithmetic; the rounding can level a difference under a hundredth.
- CreditLimit.FirstDebtRaisesScoreExactly: in exact arithmetic, likewise.
- Origination.Originate: the lookup after the last attempt may be lost, and then the unknown error says nothing about
  the channel; requests are answered one at a time, those of other workers in between.
