# A verified model of the hotel back end

This project models the parts of the hotel-management API that carry a protocol, a state
machine or arithmetic, and proves what they promise for every input and every run.

| files | what they model |
|---|---|
| `Ledger`, `LedgerAccounts`, `LedgerBalance`, `LedgerReversal`, `LedgerHistory` | the double-entry ledger: chart of accounts, posting templates, manual entries, reversal by reference, trial balance |
| `DineIn`, `DineInHandlers`, `DineInInvariants`, `DineInTheorems` | the restaurant: tables, sessions, kitchen tickets, bills, payments, refunds |
| `DineInOrders`, `DineInCharges`, `DineInGuards`, `DineInVisit` | from the order pad to the bill, what a bill charges, what each request asks for, and a whole visit |
| `Settlement`, `Documents`, `Channel`, `ChannelBooks` | the restaurant, the accounting documents and the booking channel, each together with the ledger they post to |
| `TenantDeletion` | the multi-pass deletion of a tenant whose foreign-key order is unknown |
| `Versions`, `FeatureGate`, `PlanCache`, `AccessGates`, `RateLimit` | the caches, decisions and quota in front of the API |
| `IndianWords`, `Joining`, `WordsInText` | amounts in words, and a reader that undoes them |
| `Splits`, `InvoiceLines`, `DineInInvoice` | dividing a bill between customers, and the tax invoice of a bill |
| `Json`, `Notes` | the country and currency embedded in supplier notes |
| `Availability`, `Promo` | the two answers to "is a room free", and promo-code redemption |
| `Money`, `Options`, `Text` | rounding to the cent, missing values, and a few string helpers |

## How it is modelled

- Money is counted in cents. A `NUMERIC(_, 2)` column is an `int`; an amount in a request is a
  `real`, so floating point is idealised; `round2` is `Money.Round`, halves away from zero, and a
  column rounds what is stored in it. Percentages are hundredths of a percent.
- Code that updates rows is a class or a method proved equal, effect for effect and refusal for
  refusal, to a function on the state; the promises are lemmas about all runs of that function.
  Rows are only appended or updated, so a row is identified by its position. One tenant is modelled.
- A handler's transaction, or a single guarded `UPDATE`, is one step. The gates' loads are several
  steps, and the booking channel's job and the cancellation of an invoice two, because there the
  interleaving is the point.
- Document numbers, and hence ledger references, are assumed distinct (`LedgerReversal.Numbered`; `StrokesAreNumbered` shows that such numberings exist).

## What the code does that a reader might not expect

Each of these is a lemma; where a natural promise fails, a lemma beside it says when it holds.

- A refund takes back all that was paid, room charges included, though a room charge wrote no
  revenue row: the revenue rows of a refunded bill sum to minus its room charges
  (`DineInTheorems.BillBooks`).
- A round ordered after the bill leaves the bill behind by exactly the round's value
  (`DineInTheorems.LateRound`).
- A refund before the session is closed leaves the table in use with nobody at it for good; nothing else
  does (`DineInTheorems.RefundBeforeClosingKeepsTheTable`, `DineInTheorems.StuckIsExact`).
- The whole of a sale is debited by the method of the payment that settles it: a bill paid part in cash
  and the rest by card leaves nothing in cash (`Settlement.LastPaymentTakesAll`).
- A manual journal entry is checked before its amounts are rounded, so an entry in half cents is
  accepted and unbalances the ledger (`LedgerBalance.SubCentManualEntryUnbalances`); it keeps the balance
  exactly when its rounded debits equal its rounded credits (`LedgerBalance.ManualKeepsBalance`).
- Postings seed a new tenant's chart and manual entries do not, so a manual entry may be accepted only
  because a document was posted before it, and outlives that document's reversal
  (`LedgerHistory.FirstDocumentCarriesTheEntry`); a document can be taken out of a run exactly when no
  manual entry is answered otherwise because of it (`LedgerHistory.ErasureIsExact`).
- A cancellation reads an invoice's status and later updates it without a guard. Two that overlap both
  reverse it (`Documents.OverlappingCancelsReverseTwice`), and one that read a draft posted meanwhile
  reverses nothing (`Documents.DraftReadBeforePosting`); k reversals leave 1 - k times the invoice
  (`Documents.CancellationsAreExact`).
- The one-cent tolerance of a split is on the amounts as given, not as stored: of n customers one can come
  back n/2 + 1 cents off, and none further (`Splits.HalfCentsMoveTheLast`, `Splits.AcceptedSplitMoves`).
- The last customer of an equal split can be left with a negative share (`Splits.EqualSplitCanGoNegative`),
  exactly when `Splits.EqualSplitSign` says; of a negative total, an equal split is not read back as stored
  (`Splits.EqualSplitIsExact`).
- On a bill whose total is not positive every split invoice prints the whole tax
  (`InvoiceLines.SplitInvoicesAddUp`).
- Two deliveries of one reference that overlap book two stays (`Channel.OverlappingDeliveriesBookTwice`),
  and so do a lost mark and the redelivery after it (`Channel.LostMarkBooksTwice`); nothing else does
  (`Channel.InTurnIsExact`).
- When the overrides of a plan cannot be read, the plan gate goes on with none and keeps that for thirty
  seconds (`PlanCache.PlanDecisionsAreRecent`).
- A load in flight that has read before an edit puts the old denials back into the cache after the edit's
  invalidation (`FeatureGate.LoadInFlightOutlivesInvalidation`, `FeatureGate.InvalidationIsExact`).
- A promo code whose usage limit is NULL resolves, and can never be redeemed
  (`Promo.NullLimitIsNeverRedeemed`).
- The write check of the compatibility tables, documented as mirroring the two gates exactly, lets a
  token that cannot be re-read through where the plan gate still checks (`AccessGates.CompatMirrorsTheGates`).
- `/accounting` is listed at the premium rank, but a module-backed route is gated by its module's rank,
  which is basic (`AccessGates.AccountingIsOpenToBasic`).
- The availability count casts timestamps to dates and the search does not, so they disagree about a
  room vacated that morning (`Availability.NightAnswersAgree`, `Availability.MorningCheckoutDisagrees`).
- A closing brace in a country or a currency ends the notes' header early: the preference is lost and
  part of the header stays in the notes (`Notes.SplitAfterMerge`, `Notes.MergeReplaces`).

## Model

| member | source | states |
|---|---|---|
| `Ledger.Seed` | internal/handler/accounting_autopost.go:45-69 | seeding keeps every existing account, keeps codes unique, leaves every standard code present and changes a seeded chart not at all |
| `Ledger.GeneralLedger.EnsureChart` | internal/handler/accounting_autopost.go:45-69 | the seeding loop gives exactly the seeded chart |
| `Ledger.GeneralLedger.PostJournal` | internal/handler/accounting_autopost.go:82-121 | one entry with the lines that are non-zero and whose account exists, on the seeded chart |
| `Ledger.GeneralLedger.ReverseByReference` | internal/handler/accounting_autopost.go:229-288 | one entry under the reversal reference with every line of the reference swapped, or nothing when there is none |
| `Ledger.GeneralLedger.CreateJournalEntry` | internal/handler/accounting_handler.go:1806-1861 | accepted exactly when there are a description and lines, the request balances and every account exists; refused with nothing written |
| `LedgerAccounts.NewChart` | internal/handler/accounting_autopost.go:26-41 | a new tenant is given exactly eleven accounts: 1000, 1010, 1200 and 1400 assets, 2000 and 2100 liabilities, 3000 equity, 4000 and 4100 revenue, 5000 and 5100 expenses |
| `LedgerAccounts.PosSaleMoves` | internal/handler/pos_customer.go:162-175 | a restaurant sale moves 1000 by its total in cash, 1200 on a credit somebody owes, 1010 by any other method; 4100 by the net and 2100 by the tax; nothing else, and nothing at all on a credit nobody owes |
| `LedgerAccounts.OrderSaleMoves` | internal/handler/pos_customer.go:225-240 | an order moves 1000 in cash and 1010 otherwise, with 4100 and 2100, and nothing when its total rounds to nothing |
| `LedgerAccounts.CostOfGoodsMoves` | internal/handler/accounting_autopost.go:173-181 | the cost goes to 5000 out of 1400 |
| `LedgerAccounts.RoomRevenueMoves` | internal/handler/accounting_autopost.go:185-191 | a folio settlement moves 1000 in cash and 1010 otherwise, with 4000 and 2100 |
| `LedgerAccounts.InvoiceMoves` | internal/handler/accounting_autopost.go:195-201 | an invoice moves 1200 by its total, 4000 by minus its net and 2100 by minus its tax; for whole cents the net is total less tax |
| `LedgerAccounts.CreditNoteNegates` | internal/handler/accounting_autopost.go:205-211 | a credit note is that, negated, on every account |
| `LedgerAccounts.GoodsReceiptMoves` | internal/handler/accounting_autopost.go:215-220 | a goods receipt moves 1400 by its rounded amount, 2000 by minus that, and nothing else |
| `LedgerAccounts.DebitNoteNegates` | internal/handler/accounting_autopost.go:301-306 | a debit note is that, negated, on every account |
| `LedgerAccounts.VendorPaymentMoves` | internal/handler/accounting_autopost.go:292-297 | a vendor is paid off 2000 out of 1000 in cash and out of 1010 otherwise |
| `LedgerAccounts.ChannelSaleMoves` | internal/handler/channel_ingest.go:491-498 | a channel booking moves 1200 by its price, 2100 by minus the rounded tax and 4000 by minus the rest |
| `LedgerAccounts.ChannelFeeMoves` | internal/handler/channel_ingest.go:503-512 | a positive commission goes to 5100 against 2000; none otherwise |
| `LedgerAccounts.AccountingEquation` | internal/handler/accounting_handler.go:1914-1942 | after each step of every run of even postings, assets and expenses have gained what liabilities, equity and revenue have |
| `LedgerBalance.TemplateBalance` | internal/handler/accounting_autopost.go:131-220 | for any real total and tax an entry is off by at most one cent; for whole cents it balances |
| `LedgerBalance.OneCentSlackIsReached` | internal/handler/accounting_autopost.go:195-201 | the one cent is reached |
| `LedgerBalance.NoLegIsDropped` | internal/handler/accounting_autopost.go:97-117 | on any chart, neither skip branch loses a non-zero leg of any template, so every account gets what the template says |
| `LedgerBalance.StoredImbalance` | internal/handler/accounting_handler.go:1838-1847 | storing a manual entry moves its balance by at most a cent a line, and not at all for whole cents |
| `LedgerBalance.SubCentManualEntryUnbalances` | internal/handler/accounting_handler.go:1815-1823 | half-cent lines pass the balance check and leave the ledger unbalanced |
| `LedgerBalance.ManualKeepsBalance` | internal/handler/accounting_handler.go:1815-1852 | an accepted manual entry keeps the ledger balanced if and only if its rounded debits equal its rounded credits |
| `LedgerBalance.WholeEntryIsEven` | internal/handler/accounting_handler.go:1815-1823 | a balanced entry of whole cents always does |
| `LedgerBalance.RunBalanced` | internal/handler/accounting_autopost.go:82-121 | every run of whole-cent postings, manual entries that are even once rounded, reversals and new accounts keeps each entry balanced and on known accounts |
| `LedgerBalance.TrialBalanceOfEveryRun` | internal/handler/accounting_handler.go:1914-1942 | after each step of every such run the trial balance sums to zero and debit-normal movement equals credit-normal movement |
| `LedgerReversal.ReversalCancels` | internal/handler/accounting_autopost.go:229-288 | reversing a reference once leaves it without effect on any account and touches no other entry |
| `LedgerHistory.RunWithoutDocument` | internal/handler/accounting_autopost.go:45-121 | a run with a document's postings and reversals is, entry for entry, the run without them plus the document's own entries, also when the document is what seeds the chart, as long as no manual entry is answered otherwise because of it |
| `LedgerHistory.ErasureIsExact` | internal/handler/accounting_autopost.go:45-121 | at every moment of the run that is so if and only if no manual entry is answered otherwise because of the document |
| `LedgerHistory.ReversalRestoresEveryAccount` | internal/handler/accounting_autopost.go:223-288 | whatever is posted before, between and after under other references, on any chart, a reversed document leaves every account where the run that never posted it does, under that condition |
| `LedgerHistory.SteadyAnswers` | internal/handler/accounting_autopost.go:45-69 | manual entries that use no standard account still missing at the start meet it in every run |
| `LedgerHistory.SeededIsSteady` | internal/handler/accounting_autopost.go:45-69 | on a seeded chart every manual entry does |
| `LedgerHistory.SeededRun` | internal/handler/accounting_autopost.go:45-69 | and both runs then end with the same chart |
| `LedgerHistory.OneEntryIsExact` | internal/handler/accounting_autopost.go:82-121 | for a document, one manual entry and the document's reversal, on any book and chart: an account is restored if and only if the entry is refused even after the document, or uses no account the posting seeds, or moves nothing on it |
| `LedgerHistory.FirstDocumentCarriesTheEntry` | internal/handler/accounting_autopost.go:82-95 | for a new tenant, a cent between cash and bank is carried in by whatever document comes first |
| `DineInHandlers.ComputeTotals` | internal/handler/pos_dinein_handler.go:788-810 | the field-by-field computation gives the charges that `TotalsAreWell` describes by arithmetic on their columns |
| `DineInCharges.TotalsAreWell` | internal/handler/pos_dinein_handler.go:788-810 | from whole values: a percent discount is value hundredths of a percent of the subtotal to half a cent, a flat one its value, none zero, and never above the subtotal; the tax is the rate on what is left to half a cent, the tip likewise or flat, and the total is their sum |
| `DineInCharges.EveryBillIsWellCharged` | internal/handler/pos_dinein_handler.go:785-992 | so it is on every bill of every run with whole adjustments and rates |
| `DineInCharges.PatchIsApplied` | internal/handler/pos_dinein_handler.go:917-992 | an accepted patch stores each value it gives, rounded, keeps each it does not, and leaves the due at the new total less what was paid |
| `DineInCharges.AdjustmentsAreNotNegative` | internal/handler/pos_dinein_handler.go:972-979 | in every run no bill stores a negative discount or tip value |
| `DineInCharges.DiscountTakesOff` | internal/handler/pos_dinein_handler.go:788-799 | so a discount is between nothing and the subtotal |
| `DineInHandlers.Restaurant.OpenSession` | internal/handler/pos_dinein_handler.go:254-337 | the handler's effect, or its refusal with nothing changed |
| `DineInHandlers.Restaurant.CloseSession` | internal/handler/pos_dinein_handler.go:374-409 | likewise: only a settled session closes, and its table goes to cleaning |
| `DineInHandlers.Restaurant.CleanTable` | internal/handler/pos_dinein_handler.go:198-213 | likewise: only a table in cleaning becomes available |
| `DineInHandlers.Restaurant.CreateKot` | internal/handler/pos_dinein_handler.go:481-570 | likewise: one draft ticket with its items, priced as `OrderIsPriced` says; a billed session reopens and its bill stays as it was |
| `DineInHandlers.Restaurant.SendKot` | internal/handler/pos_dinein_handler.go:587-603 | likewise: only a draft is sent |
| `DineInHandlers.Restaurant.UpdateKotStatus` | internal/handler/pos_dinein_handler.go:607-657 | likewise: only along the transition table, the live items following |
| `DineInHandlers.Restaurant.VoidItem` | internal/handler/pos_dinein_handler.go:664-747 | likewise: the item is voided and an open bill recomputed; refused once the bill is finalized |
| `DineInHandlers.Restaurant.GenerateBill` | internal/handler/pos_dinein_handler.go:823-898 | likewise: one bill per session, asking again changes nothing |
| `DineInHandlers.Restaurant.UpdateBill` | internal/handler/pos_dinein_handler.go:901-992 | likewise: an open bill's adjustments, with the checks on rates and signs |
| `DineInHandlers.Restaurant.FinalizeBill` | internal/handler/pos_dinein_handler.go:995-1017 | likewise: only an open bill is finalized |
| `DineInHandlers.Restaurant.AddPayment` | internal/handler/pos_dinein_handler.go:1021-1151 | likewise: payment row, revenue row unless charged to a room, new balance, session settled when paid |
| `DineInHandlers.Restaurant.RefundBill` | internal/handler/pos_dinein_handler.go:1205-1253 | likewise: the negative revenue row, bill and session refunded |
| `DineInHandlers.Restaurant.Dispatch` | internal/handler/pos_dinein_handler.go:198-1253 | whichever handler a request is routed to has its effect or refuses with nothing changed, and keeps the invariants of every run |
| `DineInHandlers.Restaurant.ServeAll` | internal/handler/pos_dinein_handler.go:198-1253 | a sequence of requests handled one after the other is the run the theorems speak of, invariants kept |
| `DineInOrders.OrderIsPriced` | internal/handler/pos_dinein_handler.go:541-565 | an accepted order adds one draft ticket and one queued item per line, in order, worth quantity * (unit price + modifiers) to half a cent, exactly in whole cents, and leaves bills and payments alone |
| `DineInOrders.ItemsFollowTheOrders` | internal/handler/pos_dinein_handler.go:481-747 | in every run, what is on a session and what was voided from it are together the order lines taken for it, at quantity * (unit price + modifiers): to half a cent a line, exactly in whole cents |
| `DineInOrders.BillFollowsTheOrders` | internal/handler/pos_dinein_handler.go:481-898 | without late rounds a bill's subtotal is that less the voids; without voids and in whole cents it is the sum of quantity * (unit price + modifiers) over the order lines of the run |
| `DineInGuards.AdvancesExactly` | internal/handler/pos_dinein_handler.go:37-52 | the whole list of a ticket's moves: forward one stage, from sent straight to preparing, and cancelled exactly from draft, sent or acknowledged |
| `DineInGuards.EveryStageIsReached` | internal/handler/pos_dinein_handler.go:37-52 | a draft ticket reaches every stage up to served, step by step |
| `DineInGuards.OpensExactly` | internal/handler/pos_dinein_handler.go:284-330 | in every sound state a table can be opened exactly when it is available or reserved: the unique index refuses nothing more |
| `DineInGuards.OrdersExactly` | internal/handler/pos_dinein_handler.go:505-530 | a party can order exactly until its bill is paid or refunded, lines being named and positive |
| `DineInGuards.VoidsExactly` | internal/handler/pos_dinein_handler.go:664-715 | an item can be voided, with a reason, exactly once and until the bill is finalized |
| `DineInGuards.BillsExactly` | internal/handler/pos_dinein_handler.go:823-898 | a party is billed exactly when not closed and billed before or something is on it; a new bill charges the rate on all of it and nothing else, and marks session and table billed |
| `DineInGuards.ClosesExactly` | internal/handler/pos_dinein_handler.go:374-409 | a session closes exactly when its bill is paid and it has not closed before |
| `DineInGuards.FinalizesExactly` | internal/handler/pos_dinein_handler.go:995-1017 | exactly an open bill is finalized, and nothing else changes |
| `DineInGuards.PaysExactly` | internal/handler/pos_dinein_handler.go:1021-1148 | a payment is taken on a finalized or part-paid bill exactly when it is positive and its method allows it: cash unless less was tendered, any other method no more than is due, card and UPI with a reference, a room charge for a guest in house; the bill is paid and its session settled exactly when it covers what is due |
| `DineInGuards.RefundsExactly` | internal/handler/pos_dinein_handler.go:1205-1253 | exactly a paid or part-paid bill is refunded, with a revenue row of minus all that was paid |
| `DineInGuards.TableShowsTheBill` | internal/handler/pos_dinein_handler.go:555-565 | in every run the table of a party still seated is marked billed exactly when the party has its bill, late rounds or not |
| `DineInVisit.PartyDines` | internal/handler/pos_dinein_handler.go:254-1017 | from every sound state, a party at a free table orders any lines worth something and is presented one finalized bill of exactly those lines and the tax on them: nothing on the way is refused |
| `DineInVisit.PartyPaysAndLeaves` | internal/handler/pos_dinein_handler.go:198-1151 | from every sound state, one payment that covers a finalized bill closes the visit: bill paid, session closed, table available |
| `DineInInvariants.EveryRunIsSound` | internal/handler/pos_dinein_handler.go:198-1253 | every run keeps seating, billing, till and kitchen consistent |
| `DineInTheorems.OnePartyPerTable` | internal/handler/pos_dinein_handler.go:254-337 | in every reachable state an active session's table is occupied or billed, and no other active session has it |
| `DineInTheorems.SettledMeansPaid` | internal/handler/pos_dinein_handler.go:374-409 | a session has at most one bill, and is settled or closed exactly when that bill is paid, in full |
| `DineInTheorems.CleaningFollowsFullPayment` | internal/handler/pos_dinein_handler.go:384-403 | a table enters cleaning only by closing a session on it whose bill is paid in full |
| `DineInTheorems.BillBooks` | internal/handler/pos_dinein_handler.go:1054-1148 | amount paid is the sum of the recorded payments, amount due what is left, and the revenue rows are what was paid less room charges; after a refund they sum to zero exactly when nothing was charged to a room |
| `DineInTheorems.OnlyCashOverpays` | internal/handler/pos_dinein_handler.go:1054-1132 | in every reachable state, a bill paid above its total was paid last in cash, and that payment covers the whole excess |
| `DineInTheorems.StuckStepIsExact` | internal/handler/pos_dinein_handler.go:198-1253 | a request leaves a table in use with nobody at it if and only if it was so, or the request refunds its party before it has left |
| `DineInTheorems.StuckIsExact` | internal/handler/pos_dinein_handler.go:198-1253 | in every run a table is in use with nobody at it if and only if it was in use before the first guest or a party at it was refunded early; otherwise a table in use has an active session |
| `DineInTheorems.RefundBeforeClosingKeepsTheTable` | internal/handler/pos_dinein_handler.go:1226-1253 | after a refund before closing, the table stays in use with nobody at it in every run |
| `DineInTheorems.ChargesAreFrozen` | internal/handler/pos_dinein_handler.go:942-1017 | from finalizing on, no run of requests changes a charge, and a refunded bill never changes at all |
| `DineInTheorems.RefundedAtMostOnce` | internal/handler/pos_dinein_handler.go:1205-1253 | no run refunds a bill twice |
| `DineInTheorems.EveryBillAddsUp` | internal/handler/pos_dinein_handler.go:788-810 | on every bill of every run the stored charges add to the stored total within two cents, and exactly for whole-cent adjustments |
| `DineInTheorems.LateRound` | internal/handler/pos_dinein_handler.go:555-565 | a new round widens the gap between its session's items and bill by exactly its value, and no other bill's |
| `DineInTheorems.GapIsLateRounds` | internal/handler/pos_dinein_handler.go:481-747 | in every run, the items not on a bill are worth exactly the rounds ordered since it was generated or last recomputed by a void |
| `DineInTheorems.SubtotalFollowsItems` | internal/handler/pos_dinein_handler.go:696-740 | in every run without late rounds each bill's subtotal is the sum of the items not voided |
| `DineInTheorems.KitchenNeverGoesBack` | internal/handler/pos_dinein_handler.go:37-52 | over any run a ticket only advances, and a voided item stays voided |
| `DineInTheorems.ItemsFollowTheirTicket` | internal/handler/pos_dinein_handler.go:632-651 | in every reachable state an item is voided or at its ticket's own stage |
| `Settlement.BooksReconcile` | internal/handler/pos_dinein_handler.go:1149-1187 | in every run, for every bill and every account: unpaid, nothing; paid, the whole total on the account of the last payment's method, the net in revenue, the tax in GST, the booked cost in cost and inventory, nothing elsewhere; refunded, sale, cost and reversal move no account |
| `Settlement.PaidBillAccounts` | internal/handler/accounting_autopost.go:131-181 | in every run, a paid bill whose last payment was cash has its total in 1000 and nothing in 1010 or 1200; by card, UPI or wallet in 1010; charged to the room of a customer in 1200; with total less tax in 4100, the tax in 2100 and the cost in 5000 out of 1400; nothing elsewhere |
| `Settlement.CostIsBooked` | internal/handler/pos_dinein_handler.go:1180-1187 | a settlement books the rounded cost of goods, if positive, to 5000 out of 1400 |
| `Settlement.LastPaymentTakesAll` | internal/handler/accounting_autopost.go:131-153 | a bill settled by neither cash nor credit has its whole total at the bank and nothing in cash, whatever was paid before |
| `Settlement.HouseTrialBalance` | internal/handler/accounting_handler.go:1914-1942 | from a balanced ledger, with even office postings, the trial balance is zero after every run of the restaurant |
| `Settlement.FreshHouseReconciles` | internal/handler/pos_customer.go:162-175 | a restaurant that has not opened reconciles on any ledger that mentions no bill |
| `Documents.AccountingDesk.PostDocument` | internal/handler/accounting_handler.go:1027-1047 | only a draft is posted, and its template is booked under its own reference |
| `Documents.AccountingDesk.ReadForCancel` | internal/handler/accounting_handler.go:1054-1061 | the status of a draft or posted invoice is read; otherwise refused |
| `Documents.AccountingDesk.FinishCancel` | internal/handler/accounting_handler.go:1062-1074 | the unguarded update, and the reversal if the invoice was read as posted |
| `Documents.AccountingDesk.CancelSalesInvoice` | internal/handler/accounting_handler.go:1049-1077 | the whole handler is the one after the other |
| `Documents.CancellationsAreExact` | internal/handler/accounting_handler.go:1027-1077 | in every run, however cancellations overlap, a posted document reversed k times has 1 - k times its template on every account, and the ledger agrees with its status if and only if it is not cancelled, or k is one, or it moves nothing |
| `Documents.OverlappingCancelsReverseTwice` | internal/handler/accounting_handler.go:1054-1074 | two cancellations that both read the invoice as posted leave minus the invoice on every account |
| `Documents.DraftReadBeforePosting` | internal/handler/accounting_handler.go:1054-1074 | one that read a draft and finishes after it was posted leaves the whole invoice |
| `Documents.SubLedgerReconciles` | internal/handler/accounting_handler.go:1027-1077 | in every run of creating, editing, posting and cancelling documents among other postings, in which cancellations finish on the status they read, each document has booked exactly what its status says, and every account has moved by the sum of the booked documents plus the other postings |
| `Documents.BookedDocumentAccounts` | internal/handler/accounting_autopost.go:193-220 | in every run, however cancellations overlap, a booked invoice has its total in 1200, minus its net in 4000 and minus its tax in 2100, a credit note the opposite; a goods receipt its amount in 1400 and minus that in 2000, a debit note the opposite; nothing elsewhere |
| `Documents.CancelledInvoiceIsGone` | internal/handler/accounting_handler.go:1049-1077 | in every such run a cancelled invoice leaves each account where the other entries alone put it |
| `Documents.DeskTrialBalance` | internal/handler/accounting_handler.go:1914-1942 | with whole-cent documents the trial balance is zero after every run, however cancellations overlap |
| `Channel.ChannelIngest.Ingest` | internal/handler/channel_ingest.go:221-245 | a processed reference is a duplicate and returns its stay; any other delivery is recorded once and queued |
| `Channel.ChannelIngest.Process` | internal/handler/channel_ingest.go:461-513 | the stay with its receivable and commission under its own references |
| `Channel.ChannelIngest.CancelBooking` | internal/handler/channel_ingest.go:552-621 | only a recorded stay whose guest has not arrived is cancelled, with both references reversed where the reversal succeeds |
| `Channel.CancelsExactly` | internal/handler/channel_ingest.go:552-600 | a cancellation cancels the recorded stay exactly when its guest has not arrived, and touches no other stay, price or arrival |
| `Channel.DeliveryIsBooked` | internal/handler/channel_ingest.go:221-290 | a reference not yet processed, delivered, booked and marked, is recorded with exactly one new stay |
| `Channel.OneReservationPerReference` | internal/handler/channel_ingest.go:221-290 | in every run where a delivery is finished and marked before its reference comes again, a reference has at most one live reservation |
| `Channel.InTurnIsExact` | internal/handler/channel_ingest.go:221-290 | in every state such runs lead to, an event keeps that in every continuation in turn if and only if it is in turn itself or does nothing |
| `Channel.LostMarkBooksTwice` | internal/handler/channel_ingest.go:272-279 | a lost mark and a redelivery, each in turn, book a second live stay, in every such state |
| `Channel.OverlappingDeliveriesBookTwice` | internal/handler/channel_ingest.go:237-270 | from the start, two deliveries queued before either job runs book two live stays |
| `ChannelBooks.CancelledLeavesNoTrace` | internal/handler/channel_ingest.go:593-613 | in every run, overlapping or not, a cancelled stay whose reversal succeeded has no effect on any account, for the sale and for the commission |
| `ChannelBooks.EveryStayIsBooked` | internal/handler/channel_ingest.go:475-513 | in every run every stay has its receivable, revenue, tax and commission, account by account, under its own references |
| `ChannelBooks.ChannelTrialBalance` | internal/handler/accounting_handler.go:1914-1942 | with whole-cent prices the trial balance is zero after every run |
| `TenantDeletion.DeleteTenant` | internal/handler/platform_handler.go:114-153 | nothing is committed unless everything goes, then nothing is left; blocked if and only if some reference chain has ten or more steps at which the parent is listed before the child; never blocked when no chain has more than ten tables |
| `TenantDeletion.EarlyStopLosesNothing` | internal/handler/platform_handler.go:140-142 | stopping at a pass without progress gives what running every pass would |
| `TenantDeletion.EarlyStopMeansBlocked` | internal/handler/platform_handler.go:140-148 | for any graph, an early stop means every remaining table is still blocked; nothing remaining means nothing left |
| `TenantDeletion.SurvivorsEndChains` | internal/handler/platform_handler.go:124-144 | for any order, a table still there after n passes ends a reference chain with n or more parent-first steps |
| `TenantDeletion.PassesAreExact` | internal/handler/platform_handler.go:120-144 | for every graph and every order, n passes empty every table if and only if no chain has n or more parent-first steps |
| `TenantDeletion.ShortChainsAreDeleted` | internal/handler/platform_handler.go:120-144 | for any order and any number of passes n, chains of at most n tables are emptied |
| `TenantDeletion.TenPassesAreExact` | internal/handler/platform_handler.go:124-124 | for a catalogue listing parents first, ten passes succeed if and only if no chain is longer than ten |
| `FeatureGate.Gate.constructor` | internal/handler/feature_matrix.go:47-49 | an empty cache, which mirrors every initial state |
| `FeatureGate.Gate.Find` | internal/handler/feature_matrix.go:53-59 | a hit exactly when the state machine lets a request use the cache, with exactly what it decides by |
| `FeatureGate.Gate.Build` | internal/handler/feature_matrix.go:61-85 | the loop over the rows builds the configuration that the stamping step of the load has, and stores nothing |
| `FeatureGate.Gate.Store` | internal/handler/feature_matrix.go:86-89 | storing it is the storing step: the gate still mirrors the state |
| `FeatureGate.Gate.Invalidate` | internal/handler/feature_matrix.go:94-98 | the hotel's entry is gone and no other, as in the invalidating step |
| `FeatureGate.DenyMapDenies` | internal/handler/feature_matrix.go:70-80 | the map built from the rows denies exactly what the rows deny |
| `FeatureGate.OtherStepsKeepTheCache` | internal/handler/feature_matrix.go:53-98 | no other step touches what the gate holds |
| `FeatureGate.DecisionsAreRecent` | internal/handler/feature_matrix.go:53-98 | in every interleaving of loads, edits, invalidations and the clock, a decision made from a configuration denies a role a feature exactly when the matrix did at an instant at most thirty seconds plus the longest load ago |
| `FeatureGate.TrustedForThirtySeconds` | internal/handler/feature_matrix.go:53-89 | what a load stamped is used exactly until 30000 milliseconds later, as long as it is what is cached |
| `FeatureGate.InvalidationTakesEffect` | internal/handler/feature_matrix.go:92-98 | if no load in flight has read an older version, every decision after an invalidation sees the newest version or a later one |
| `FeatureGate.InvalidationIsExact` | internal/handler/feature_matrix.go:53-98 | and only then |
| `FeatureGate.LoadInFlightOutlivesInvalidation` | internal/handler/feature_matrix.go:62-98 | once a load in flight has read, no edit's invalidation takes effect |
| `FeatureGate.LoadsDoRead` | internal/handler/feature_matrix.go:61-68 | such loads do arise |
| `PlanCache.PlanGateState.Find` | internal/handler/plan_gate.go:126-132 | a hit exactly when the state machine lets a request use the cache, with exactly what it decides by |
| `PlanCache.PlanGateState.Store` | internal/handler/plan_gate.go:152-155 | the storing step of a load |
| `PlanCache.PlanDecisionsAreRecent` | internal/handler/plan_gate.go:117-164 | in every interleaving a decision uses the plan and mask of one instant and the overrides of a later one, or none if they could not be read, both at most thirty seconds plus the longest load ago |
| `PlanCache.PlanTrustedForThirtySeconds` | internal/handler/plan_gate.go:126-155 | what a load stamped is used exactly until 30000 milliseconds later, as long as it is what is cached |
| `AccessGates.RuleForPath` | internal/handler/plan_gate.go:83-96 | in every iteration order, the rule of the longest matching prefix, or none when none matches |
| `AccessGates.LongestMatchIsUnique` | internal/handler/plan_gate.go:83-96 | two matching prefixes of one length are the same |
| `AccessGates.GovernedPaths` | internal/handler/plan_gate.go:83-91 | under the API prefix a rule matches its own path and those below it, and no path that merely begins alike |
| `AccessGates.EffectiveModules` | internal/handler/module_handler.go:65-75 | every registered module is on unless stored as off |
| `AccessGates.PlanAwareModules` | internal/handler/module_handler.go:111-123 | every registered module, and no other; one masked is off; one named in the overrides is as they say; any other is on, except revenue, channel manager, procurement and night audit on a basic plan |
| `AccessGates.PlanGateHandler` | internal/handler/plan_gate.go:167-223 | for a caller who is no administrator and a loaded configuration, a route's module is admitted exactly so, a route without one by its rank; everybody else is let through |
| `AccessGates.FeatureGateHandler` | internal/handler/feature_matrix.go:101-157 | denied exactly when the route has a module, the token is readable and no administrator's, the denials loaded, and some non-empty role is held and every one denied |
| `AccessGates.EnforceCompatWrite` | internal/handler/compat_handler.go:68-132 | a readable caller who is no administrator is refused when every role is denied, and otherwise admitted exactly as the plan, overrides and mask say; everybody else is let through |
| `AccessGates.CompatMirrorsTheGates` | internal/handler/compat_handler.go:63-132 | the write check agrees with the two gates together if and only if the token is readable or the plan allows the module anyway |
| `AccessGates.NavigationMatchesPlanGate` | internal/handler/module_handler.go:111-123 | for every plan, mask and override the navigation enables a module exactly when the plan gate admits a non-administrator |
| `AccessGates.RouteRanksAgreeExceptAccounting` | internal/handler/plan_gate.go:58-79 | the rank listed with a module-backed route is the module's own, except for accounting |
| `AccessGates.AccountingIsOpenToBasic` | internal/handler/plan_gate.go:195-221 | a basic plan without overrides passes the plan gate to accounting |
| `AccessGates.MessagesArePremium` | internal/handler/plan_gate.go:69-70 | the routes without a module at rank two are open to a premium plan only |
| `RateLimit.Limiter.IncrementWithTTL` | internal/cache/cache.go:121-134 | the count goes up by one, and the expiry is set only by the first hit |
| `RateLimit.Limiter.Admit` | internal/handler/rate_limit.go:45-75 | admitted exactly while the new count is within the limit, with the remaining quota |
| `RateLimit.CounterCountsHits` | internal/handler/rate_limit.go:53-60 | over every request sequence a counter outlives its bucket and counts each of its hits |
| `RateLimit.ExpiryIsSetOnce` | internal/cache/cache.go:121-134 | over every request sequence a counter expires 60000 milliseconds after the first hit of its bucket, however many follow |
| `RateLimit.AdmittedPerBucket` | internal/handler/rate_limit.go:45-75 | each client gets through exactly the smaller of its limit and its hits per bucket |
| `RateLimit.AtMostTwiceTheLimit` | internal/handler/rate_limit.go:45-75 | at most twice the limit in any span of sixty seconds |
| `RateLimit.TwiceTheLimitIsReached` | internal/handler/rate_limit.go:45-75 | twice the limit does get through, for every limit |
| `IndianWords.NumberRoundTrip` | internal/handler/pos_invoice.go:403-428 | every number is read back from its words, nested crores included |
| `IndianWords.OneWayToSay` | internal/handler/pos_invoice.go:396-401 | the words of a number below a hundred are the only tens-and-ones phrase with that value |
| `IndianWords.SaidInOrder` | internal/handler/pos_invoice.go:403-428 | any crores, lakhs, thousands, hundreds and rest are said in that order, leaving out what is zero |
| `IndianWords.AmountRoundTrip` | internal/handler/pos_invoice.go:374-390 | every whole-cent amount is read back from its words |
| `WordsInText.SpelledWord` | internal/handler/pos_invoice.go:392-401 | no two words are spelled alike and none contains a space |
| `WordsInText.TextRoundTrip` | internal/handler/pos_invoice.go:403-428 | splitting and reading the text gives the words back |
| `WordsInText.InvTwo` | internal/handler/pos_invoice.go:396-401 | the text of a number below a hundred |
| `WordsInText.IntToIndianWords` | internal/handler/pos_invoice.go:403-428 | terminates, and its text is that of the number's words |
| `WordsInText.AmountInWords` | internal/handler/pos_invoice.go:374-390 | for every non-negative amount and every currency the text reads back as the amount to the nearest cent, in dollars and cents for USD and rupees and paisa otherwise, the smaller unit only when there is some of it |
| `Splits.LoadSplits` | internal/handler/pos_split.go:50-71 | the loop gives the renormalised amounts |
| `Splits.SplitsSumToTotal` | internal/handler/pos_split.go:56-69 | for any shares and any total the amounts sum to exactly the total |
| `Splits.SplitsAreProportional` | internal/handler/pos_split.go:56-69 | each amount is within half a cent of its proportion, the last within (n - 1) / 2 cents |
| `Splits.SharesComeBack` | internal/handler/pos_split.go:56-69 | whole-cent shares that sum to the total come back unchanged |
| `Splits.ToleranceMovesOneCent` | internal/handler/pos_split.go:56-69 | stored shares, zero ones included, that sum to within a cent of the total come back within a cent each |
| `Splits.AcceptedSplitMoves` | internal/handler/pos_split.go:144-184 | for every accepted request with amounts: within a cent each for whole cents or when the stored shares sum to within a cent; in any case each of n customers within n/2 + 1 cents |
| `Splits.HalfCentsMoveTheLast` | internal/handler/pos_split.go:165-173 | for every n that bound is reached |
| `Splits.MovesAreBounded` | internal/handler/pos_split.go:56-69 | no stored share moves by more than the sum is off the total, or half a cent for each other customer |
| `Splits.SetSplits` | internal/handler/pos_split.go:144-184 | exactly which requests are stored, and the shares stored for them |
| `Splits.AcceptsExactly` | internal/handler/pos_split.go:144-173 | stored if and only if there are two customers or more, each named, with no amounts at all, or with positive amounts for all whose sum is at least the total less a cent and a half and below the total and a cent and a half |
| `Splits.EqualSharesAreEqual` | internal/handler/pos_split.go:174-183 | all but the last get the same share, the n-th part to half a cent |
| `Splits.EqualSplitIsExact` | internal/handler/pos_split.go:174-183 | an equal split sums to the total, and is read back unchanged if and only if there is one customer or the total is above minus half a cent each |
| `Splits.EqualSplitSign` | internal/handler/pos_split.go:174-183 | of a total that is not negative, the last share is negative if and only if 2 (total mod n) >= n and total div n + total mod n + 1 < n |
| `Splits.EqualSplitCanGoNegative` | internal/handler/pos_split.go:178-182 | two cents between four customers leave the last with minus one |
| `InvoiceLines.BuildLines` | internal/handler/pos_invoice.go:159-189 | the loop gives each line's allocation and the column sums |
| `InvoiceLines.HalvesOf` | internal/handler/pos_invoice.go:159-159 | the two printed halves make the rate, or a hundredth of a percent more when it is odd |
| `InvoiceLines.DiscountDrift` | internal/handler/pos_invoice.go:159-175 | the n allocated line discounts sum to the bill's discount within n/2 cents |
| `InvoiceLines.TaxDrift` | internal/handler/pos_invoice.go:176-189 | for any rate and any tax within half a cent of the rate on the discounted sum, the lines' CGST and SGST miss it by at most n + n * rate / 200 + 1/2 cents, and by a ten-thousandth of the taxable amount more at an odd number of hundredths of a percent |
| `DineInInvoice.InvoiceMatchesTheBill` | internal/handler/pos_invoice.go:125-189 | in every run with whole adjustments and no late rounds, the invoice of a bill that charges for something prints the bill's subtotal exactly, its discount within n/2 cents, and its stored tax within that bound; and its columns add up |
| `InvoiceLines.TotalRowAddsUp` | internal/handler/pos_invoice.go:217-224 | CGST and SGST of the Total Value row sum to the rounded tax, for every tax |
| `InvoiceLines.BillTaxIsExact` | internal/handler/pos_invoice.go:217-224 | on an unsplit invoice they sum to the bill's tax exactly |
| `InvoiceLines.SplitInvoicesAddUp` | internal/handler/pos_invoice.go:191-224 | for every tax, total and shares the split invoices' totals sum to the bill's total exactly; their taxes within half a cent a customer when the total is positive, and to n times the tax otherwise |
| `InvoiceLines.ScaleLines` | internal/handler/pos_invoice.go:191-215 | each line is scaled in place to the customer's fraction, or kept when the bill's total is not positive, its tax computed afresh |
| `InvoiceLines.ScaledLinesAddUp` | internal/handler/pos_invoice.go:191-215 | over all n customers a line's gross and discount come back within n/2 cents, its net within n |
| `Json.EscapeRoundTrip` | internal/handler/compat_handler.go:2033-2033 | reading past an escaped string gives the string back, for every string, as section 7 of RFC 8259 has it |
| `Json.EscapedIsSafe` | internal/handler/compat_handler.go:2033-2033 | no escaped string holds a control character, an angle bracket, an ampersand or a line separator |
| `Notes.DecodeRoundTrip` | internal/handler/compat_handler.go:1993-1996 | every country and currency decodes as it was encoded |
| `Notes.SplitAfterMerge` | internal/handler/compat_handler.go:1998-2038 | splitting merged notes gives back country, currency and clean notes, for all notes, if and only if both values are non-blank and hold no closing brace |
| `Notes.MergeReplaces` | internal/handler/compat_handler.go:2025-2038 | merging again replaces the header if and only if the first held no closing brace of its own |
| `Notes.UnmarkedHasDefaults` | internal/handler/compat_handler.go:1998-2023 | notes without the mark stand for United States and USD, and keep their text |
| `Availability.NightAnswersAgree` | internal/handler/booking_handler.go:69-83 | for one night the search returns at most the daily count, and as many if and only if each room left in the course of that day is taken again that day by a stay over the night |
| `Availability.SearchedRoomsAreFree` | internal/handler/booking_handler.go:140-150 | the search returns exactly the sellable rooms that no live stay holds at any minute of the days asked for |
| `Availability.CountedRoomsAreFree` | internal/handler/booking_handler.go:69-83 | the daily count is the number of sellable rooms that no live stay holds at the last minute of the day |
| `Availability.MidnightCheckoutsAgree` | internal/handler/booking_handler.go:69-83 | with check-outs at midnight the two are equal |
| `Availability.MorningCheckoutDisagrees` | internal/handler/booking_handler.go:140-150 | a guest leaving at eleven: counted free, not offered |
| `Availability.RangeSearchIsBounded` | internal/handler/booking_handler.go:140-150 | over a longer range the search returns at most the smallest daily count |
| `Promo.PromotionRow.Redeem` | internal/handler/promo.go:139-156 | one use is taken exactly when the guard holds |
| `Promo.NeverOverRedeemed` | internal/handler/promo.go:139-156 | no interleaving of redemptions and activations exceeds a positive limit |
| `Promo.AttemptsAreExact` | internal/handler/promo.go:139-156 | of any number of attempts exactly as many succeed as the code has uses left: none when inactive or without a stored limit, all when the limit is zero |
| `Promo.ResolvedThenRedeemed` | internal/handler/promo.go:91-156 | a resolved code with no redemption, edit or deactivation since redeems if and only if its limit is stored and not negative |
| `Promo.NullLimitIsNeverRedeemed` | internal/handler/promo.go:143-150 | a code stored without a limit is never redeemed in any run |
| `Promo.DiscountInBounds` | internal/handler/promo.go:108-131 | for whole-cent amounts the discount is between zero and the smaller of base and cap |
| `Promo.DiscountIsTheOffer` | internal/handler/promo.go:108-131 | the discount is value hundredths of a percent of the base to half a cent, or the flat value, unless that exceeds the cap or the base: then it is the smaller of those |
| `Promo.AppliesExactly` | internal/handler/promo.go:91-106 | a code applies if and only if it is active, within its days, not used up, and the stay is long and dear enough |

## Left out

- Routing, parsing, authentication, audit rows and response shaping; roles are modelled only where a gate decides by them.
- Floating-point error: request amounts are exact reals, so a half cent that float64 misrepresents is not seen.
- The ledger posting after a settlement or a refund runs after the commit; `Settlement` takes both as one step, so a posting lost in between is not modelled.
- The folio leg of a room charge, the selection of items for cost of goods (the cost is an arbitrary amount), the change due on cash, and voucher numbers.
- Free-form table patches and the deletion or editing of ledger accounts, which bypass the state machines proved here.
- Bill statuses that none of the modelled handlers writes ('void', 'cancelled').
- The normalisation of payment-method, plan and currency strings beyond the cases that branch.
- Uniqueness of generated document numbers: assumed.
- The channel's own rate card (only the branch where the channel sent a price), room choice, and guest and customer rows; a failed reversal is taken to write nothing.
- The number of requests per minute of each plan: the limit is arbitrary.
- FeatureGate.DecisionsAreRecent: speaks of decisions made from a configuration; a request whose load fails is let through without one, and is not among them; the same holds for `PlanCache.PlanDecisionsAreRecent`.
- Foreign keys that cascade, and rows written while a tenant is being deleted.
- The filters of the room search (guests, room type) and its prices; the overlap constraint on stays is an assumption.
- The description, HSN code and layout of invoice lines.
- Nesting limits of the JSON decoder and invalid UTF-8; object values inside the header's object cannot occur, since its first closing brace ends it.
- Vendor, asset, procurement, CRM and outlet records: plain storage.
- Channel.ChannelIngest.CancelBooking: is one step, where the source cancels the stay under a guard, reverses the two references and then updates the record.
- Concurrency inside one handler otherwise: the queries and status updates of availability, documents and the channel are modelled on values, one step each.
