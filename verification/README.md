# DukaanAI: verified models of the money, session, catalogue and stock logic

This project models the parts of the shop backend whose correctness spans many
calls, and proves what they promise for every input and every run.

Units. Money is in whole paise (`int`), quantities in thousandths of a unit,
rates in exact percent (`real`); amounts that a caller sends are unrounded reals.
Rounding is half away from zero to the paisa.

Form. A calculation is a function with lemmas about it. Code that changes rows
step by step is a method, of a class where the rows are its fields, and is proved
equal to a specification function; runs of transactions are then folds of those
functions, and the invariants are proved over every run. A database transaction
is one atomic step. Where a request reads outside its transaction, the model
gives it what it read (an earlier state) and the state its transaction finds, so
every interleaving of requests is covered.

Modules, in reading order:

- `Common`, `Rounding`: sums, lookups, half-up rounding.
- `Pricing`, `Allocation`, `Invoice`, `DiscountAuthority`, `Returns`: the invoice
  arithmetic, its inverse search, the proportional allocator, cumulative returns.
- `Ledger`, `SalePosting`, `ExpenseBooks`, `Receivables`, `Payables`: double-entry
  postings and every balance that must agree with them.
- `Sessions`: the refresh-token family protocol under every interleaving.
- `CategoryPaths`, `Categories`: the materialised-path tree, down to its strings.
- `StockRecon`, `ReconScan`: compare-and-swap repair and the keyset scan.
- `ShopPaths`: the breadth-first search over required relations.
- `Checkout`: idempotency keys and request hashes.

## Findings

Where the code does not do all that its comments or name say, the model follows
the code, a lemma shows an input, and another gives the exact condition.

- The exclusive price search (`invoice-math.engine.ts:127`) probes one paisa above
  its answer, so a target at the maximum whose inclusive price is itself is refused
  (`Pricing.ExclusiveUnitPrice`, `Pricing.MaximumIsItsOwnInclusive`).
- The request hash in its old format omits the place of supply, so a bill without
  tenders replays another one that differs only by naming one
  (`Checkout.FalseReplayExactly`, `Checkout.CreditBillReplaysAcrossStates`). An
  invoice stored without a hash replays for any request.
- A refresh that loses its race to a logout, a revocation or a sweep is handled as
  token reuse although the token was never rotated, unlike the comment at
  `auth.service.ts:126-127` (`Sessions.CommitDecides`,
  `Sessions.LogoutRaceIsHandledAsReuse`).
- Opening a legacy product's first row moves the inventory rows without moving
  `stockVersion`, so a compare-and-swap repair can go through and be wrong
  (`StockRecon.RepairIsExact`, `StockRecon.LegacyOpeningSpoilsRepair`).
- The scan can visit a product twice when a change during the run is stamped no
  later than its start, even exactly at it (`ReconScan.StampAtRunStartIsVisitedTwice`).
  It does exactly when a page is read while a visited product's row is past the
  cursor, in the window and among the first matches (`ReconScan.ShownAgainExactly`,
  `ReconScan.VisitsTwiceExactly`, `ReconScan.RestRevisitsExactly`). A batch size of
  zero visits nothing.
- Rounding is half away from zero, so it does not commute with adding whole paise
  to a tie when that crosses zero, and does for every other amount
  (`Rounding.HalfUpShiftFailsAcrossZero`, `Rounding.HalfUpShiftExactly`).
- The overview comment of the calculation says that the allocator leaves the
  remainder on the last line with room; the code walks backwards and may settle it
  over several lines, taking back as well as adding
  (`Allocation.LeftoverAddsToTwoLines`, `Allocation.LeftoverTakesBackFromThreeLines`),
  exactly when the last line that can move does not hold all of it
  (`Allocation.LeftoverOnOneLine`).

## Model

| member | source | states |
|---|---|---|
| Rounding.HalfUpWithinHalf | packages/invoice-math/src/invoice-math.engine.ts:43-45 | rounding to the paisa moves an amount by half a paisa at most, and a non-negative one by strictly less downwards |
| Rounding.HalfUpMonotone | packages/invoice-math/src/invoice-math.engine.ts:43-45 | a larger amount never rounds to a smaller one |
| Rounding.HalfUpShiftExactly | packages/invoice-math/src/invoice-math.engine.ts:43-45 | for every amount and every number of whole paise, either way: adding them commutes with rounding exactly unless the amount is a tie and the sum lies on the other side of zero |
| Rounding.HalfUpShiftFailsAcrossZero | packages/invoice-math/src/invoice-math.engine.ts:43-45 | halves round away from zero, so a concrete tie below zero rounds otherwise after a shift above it |
| Rounding.HalfUpIsIntegerDivision | packages/invoice-math/src/invoice-math.engine.ts:43-45 | on a quotient of naturals it is the integer formula (2n + d) / 2d |
| Pricing.ComponentNearShare | packages/invoice-math/src/tax/tax.calculator.ts:29-38 | each tax component is non-negative and within half a paisa of its exact share |
| Pricing.TaxNonNegative | packages/invoice-math/src/tax/tax.calculator.ts:29-38 | no component of a tax on a non-negative amount is negative, in either split |
| Pricing.ComponentStep | packages/invoice-math/src/tax/tax.calculator.ts:29-38 | one more paisa of amount adds at most one paisa to a component |
| Pricing.InclusiveIncreasing | packages/invoice-math/src/invoice-math.engine.ts:94-106 | a dearer price never has a cheaper tax-inclusive price: the function that the search inverts is strictly increasing |
| Pricing.InclusiveNearExact | packages/invoice-math/src/invoice-math.engine.ts:84-106 | the tax-inclusive price is less than a paisa below and at most one and a half above the exact price times 1 plus the rates |
| Pricing.ExclusiveInvertsInclusive | packages/invoice-math/src/invoice-math.engine.ts:108-130 | round trip: the exclusive price of a price's own inclusive price is that price |
| Pricing.QuotientIsClose | packages/invoice-math/src/invoice-math.engine.ts:125-128 | the rounded-down quotient is at most one paisa from the answer, on either side |
| Pricing.ShortfallBoundsAreTight | packages/invoice-math/src/invoice-math.engine.ts:108-115 | concrete prices where the shortfall is 2 paise without cess and 3 with it |
| Pricing.ExclusiveUnitPrice | packages/invoice-math/src/invoice-math.engine.ts:116-130 | for every target and all rates 0..100: the largest price whose inclusive price does not exceed the target, found in at most one step of the two loops, at most 2 paise short without cess and 3 with it; input errors in the code's order; refused beyond them exactly at the maximum when the maximum's inclusive price is itself |
| Pricing.MaximumIsItsOwnInclusive | packages/invoice-math/src/invoice-math.engine.ts:127 | at zero rates the maximum is such a price: it is its own inclusive price, so the search refuses it |
| Allocation.AllocateProportionally | packages/invoice-math/src/invoice-math.engine.ts:262-289 | the two loops compute the allocation that the lemmas below are about |
| Allocation.AllocationIsExact | packages/invoice-math/src/invoice-math.engine.ts:255-289 | for every total and non-negative weights: each share lies in 0..weight, and the shares add up to the total, or to what the weights hold of it |
| Allocation.LeftoverIsSmall | packages/invoice-math/src/invoice-math.engine.ts:255-273 | what rounding leaves to settle is at most n/2 paise |
| Allocation.SettledFromTheEnd | packages/invoice-math/src/invoice-math.engine.ts:274-287 | the one backward pass never reaches an earlier line while a later one could still take or give |
| Allocation.LeftoverOnOneLine | packages/invoice-math/src/invoice-math.engine.ts:274-287 | the leftover moves at most one line exactly when the last line that can move holds all of it, or no line can move |
| Allocation.LeftoverAddsToTwoLines | packages/invoice-math/src/invoice-math.engine.ts:274-287 | two paise over five one-paisa lines round to nothing, and the last two lines take one each |
| Allocation.LeftoverTakesBackFromThreeLines | packages/invoice-math/src/invoice-math.engine.ts:274-287 | three paise over six one-paisa lines round to one each, and the last three lines give theirs back |
| Allocation.AllocationIsFair | packages/invoice-math/src/invoice-math.engine.ts:255-289 | no line ends more than (n+1)/2 paise from its exact proportional share |
| Invoice.PrepareLines | packages/invoice-math/src/invoice-math.engine.ts:312-355 | the lines of the bill, or the error of the first line in order that has one, duplicates included |
| Invoice.SettlePayment | packages/invoice-math/src/invoice-math.engine.ts:205-253 | the settled payment, or the first error in the code's order |
| Invoice.SettlementIsExact | packages/invoice-math/src/invoice-math.engine.ts:205-253 | an accepted payment covers the total exactly; every tender is non-negative, change is given on cash only and adds up |
| Invoice.AddUp | packages/invoice-math/src/invoice-math.engine.ts:401-450 | the eight accumulators end as the column sums of the lines |
| Invoice.Calculate | packages/invoice-math/src/invoice-math.engine.ts:305-483 | the whole calculation, in the code's order of checks, equals the specification that the lemmas below are about |
| Invoice.LinesNearExact | packages/invoice-math/src/invoice-math.engine.ts:313-355 | line by line, quantity, price, amount, line discount and every tax component of an accepted bill are within half a unit of exact, taxes split by place of supply |
| Invoice.LinesAddUp | packages/invoice-math/src/invoice-math.engine.ts:442-452 | line columns add up across the bill: subtotal = taxable + discount, tax = its four components, line totals = taxable + tax |
| Invoice.RoundToRupeeFacts | packages/invoice-math/src/invoice-math.engine.ts:452-455 | the final total is a whole rupee within 50 paise, ties up |
| Invoice.CalculatedIsSound | packages/invoice-math/src/invoice-math.engine.ts:291-304 | every accepted bill: discount shares add up to the invoice discount, totals agree with each other and the lines, the round-off is the difference, no amount is negative or above the maximum, and a payment settles it exactly |
| DiscountAuthority.DiscountLimitAmounts | packages/invoice-math/src/invoice-math.engine.ts:144-150 | the two allowances of a limit, the per-line sum by the code's accumulation |
| DiscountAuthority.EnforceDiscountAuthority | apps/api/src/billing/billing.service.ts:825-870 | a cashier is refused for a discount exactly when it is not within the limit, then for custom lines exactly when they are over the caps; a manager never |
| DiscountAuthority.LineDiscountsAreAllowed | apps/api/src/billing/billing.service.ts:819-834 | complete: line percentages within the limit and nothing else are never refused, whatever rounding did |
| DiscountAuthority.InvoicePercentageIsAllowed | apps/api/src/billing/billing.service.ts:819-834 | complete: one invoice percentage within the limit, named as one or sent without a type and an amount, is never refused |
| DiscountAuthority.AcceptedDiscountIsBounded | apps/api/src/billing/billing.service.ts:819-834 | sound: an accepted cashier bill's discount exceeds the exact share of the limit by at most n/2 paise |
| Returns.CumulativeNearExact | packages/invoice-math/src/invoice-math.engine.ts:524-531 | the cumulative refund lies within the stored amount and half a paisa of the exact proportion, whatever went back before |
| Returns.CumulativeMonotone | packages/invoice-math/src/invoice-math.engine.ts:524-531 | more units back never refund less, so no slice is negative |
| Returns.SlicesAddUp | packages/invoice-math/src/invoice-math.engine.ts:485-493 | however a line is split, what it refunds depends only on where the split starts and ends |
| Returns.FullReturnRefundsStored | packages/invoice-math/src/invoice-math.engine.ts:485-493 | a line returned in full in any parts refunds exactly its stored amount |
| Returns.SliceFacts | packages/invoice-math/src/invoice-math.engine.ts:524-545 | between any two cumulative quantities no column of a line is negative, and the whole line is its stored amounts |
| Returns.CostNearExact | packages/invoice-math/src/invoice-math.engine.ts:152-165 | the cost a sale books is within half a paisa of exact; a later slice is the rest of a larger sale's |
| Returns.CostSlicesAddUp | packages/invoice-math/src/invoice-math.engine.ts:152-165 | the returns of a line book together exactly the cost its sale booked for those units |
| Returns.ReturnDocAddsUp | packages/invoice-math/src/invoice-math.engine.ts:536-598 | on every return document subtotal less discount is taxable, and the total is its lines plus the round-off |
| Returns.SelectedIsValid | apps/api/src/billing/services/invoice-reversal.service.ts:565-595 | a selection is non-empty, names distinct lines of the sale and none beyond what is left of it |
| Returns.CompletesMeans | apps/api/src/billing/services/invoice-reversal.service.ts:135-139 | a return completes the sale exactly when the lines have refunded the whole grand total; zero-value lines never hold it open |
| Returns.SaleReturns.ProcessReturn | apps/api/src/billing/services/invoice-reversal.service.ts:132-141 | the rows a return writes: the specification step, or its error and nothing |
| Returns.ReturnKeepsSettlement | packages/invoice-math/src/invoice-math.engine.ts:494-499 | one more return keeps the settlement invariant |
| Returns.EveryRunSettles | packages/invoice-math/src/invoice-math.engine.ts:494-599 | any run of returns: the refunds are the smaller of what was returned and the invoice total, exactly the invoice total once complete; round-offs add up to the difference and none exceeds the sale's |
| Returns.RunColumns | packages/invoice-math/src/invoice-math.engine.ts:533-545 | after any run each column of the return documents is that column's cumulative refund |
| Returns.EverythingReturnedRefundsStored | packages/invoice-math/src/invoice-math.engine.ts:485-493 | once every line is back, each column of the returns equals the sale's, to the paisa |
| Returns.EveryBillIsReturnable | packages/invoice-math/src/invoice-math.engine.ts:485-493 | every bill that the calculation accepts meets what the settlement needs |
| Returns.ReturnsOfABill | packages/invoice-math/src/invoice-math.engine.ts:494-499 | end to end, for any accepted bill and any run of returns: never more than the bill, and exactly the bill and its round-off once nothing is left |
| Ledger.LedgerPostingService.Post | apps/api/src/ledger/ledger-posting.service.ts:100-147 | the posting loop writes the specification's books; an unbalanced posting is refused, a replay and an empty one write nothing |
| Ledger.SortIsStable | apps/api/src/ledger/ledger-posting.service.ts:119-121 | entries are posted in account order, and the entries of one account in the order they came |
| Ledger.PostingKeepsBooks | apps/api/src/ledger/ledger-posting.service.ts:75-147 | every accepted posting keeps the books consistent |
| Ledger.EveryRunIsConsistent | apps/api/src/ledger/ledger-posting.service.ts:75-147 | after any run of postings: each balance is the signed sum of its rows, each stamped balance the running sum (an account named twice included), sources are unique, and debit-normal balances equal credit-normal ones |
| Ledger.SourcePostsOnce | apps/api/src/ledger/ledger-posting.service.ts:106-117 | once posted, a source's rows never change, whatever is posted later, its own replays included |
| Ledger.PostedBalance | apps/api/src/ledger/ledger-posting.service.ts:123-132 | a written posting moves each account by its net amount on the account's normal side |
| Ledger.BalancedPostingIsAccepted | apps/api/src/ledger/ledger-posting.service.ts:110-114 | non-negative whole-paise entries with equal sides are never refused |
| SalePosting.SplitRevenueIsExact | apps/api/src/billing/billing.types.ts:48-64 | revenue and tax are non-negative, and together what was settled exactly when that is not negative |
| SalePosting.BucketsCoverTenders | apps/api/src/billing/billing.service.ts:985-988 | cash and bank together are every tender, and bank is UPI plus cards and transfers |
| SalePosting.SettledDocumentBalances | apps/api/src/billing/billing.service.ts:990-1015 | a settled document posts non-negative, equal sides, as a sale and as a reversal, under 50 paise included |
| SalePosting.SaleReaches | apps/api/src/billing/billing.service.ts:990-1015 | account by account: cash tenders to the drawer, the rest to the bank, credit to receivables, the settled amount to revenue and tax, cost out of stock |
| SalePosting.EverySalePosts | apps/api/src/billing/billing.service.ts:476-482 | the ledger never refuses the posting of any bill the calculation accepts with a payment |
| SalePosting.EveryReturnPosts | apps/api/src/billing/services/invoice-reversal.service.ts:299-305 | nor of any return of a settled sale, however much credit it reverses |
| SalePosting.EveryReturnOfABillPosts | apps/api/src/billing/services/invoice-reversal.service.ts:299-305 | after any run of returns of any bill the engine accepted, the next accepted return posts, whatever part of it reverses credit |
| SalePosting.ReceivableMoves | apps/api/src/billing/services/invoice-reversal.service.ts:722-737 | a sale raises receivables by its credit and a reversal lowers them by the credit it reverses |
| SalePosting.CancellationRestatesBill | apps/api/src/billing/services/invoice-reversal.service.ts:437-441 | the cancellation document of any bill has the bill's taxable amount, tax, round-off and total |
| SalePosting.CancellationUndoesSale | apps/api/src/billing/services/invoice-reversal.service.ts:446-463 | a cancellation takes back what its sale brought to every account; only credit repaid meanwhile leaves in cash instead |
| SalePosting.CancellingABill | apps/api/src/billing/services/invoice-reversal.service.ts:437-517 | selling and cancelling any bill, with anything posted between: every account is back, save credit repaid meanwhile |
| ExpenseBooks.ExpensesService.SyncLedger | apps/api/src/expenses/expenses.service.ts:375-405 | the loop over the postings posts exactly what is lacking |
| ExpenseBooks.ExpensesService.MoveDrawer | apps/api/src/expenses/expenses.service.ts:346-365 | the drawers and the shift named afterwards, branch by branch |
| ExpenseBooks.ExpensesService.Create | apps/api/src/expenses/expenses.service.ts:176-206 | one transaction: row, drawer and posting, or nothing |
| ExpenseBooks.ExpensesService.Update | apps/api/src/expenses/expenses.service.ts:208-239 | one transaction on a live expense, or nothing |
| ExpenseBooks.ExpensesService.SoftDelete | apps/api/src/expenses/expenses.service.ts:241-251 | one transaction on a live expense, or nothing |
| ExpenseBooks.OpenShiftOf | apps/api/src/shifts/cash-payout.ts:15-20 | the latest of the user's open shifts, if any |
| ExpenseBooks.NextSourceIsNew | apps/api/src/expenses/expenses.service.ts:396-405 | the next key of an expense is unused, and taking it keeps its adjustments numbered without gaps |
| ExpenseBooks.LackingBalances | apps/api/src/expenses/expenses.service.ts:386-393 | what an expense lacks is balanced, whatever it was before, an expense never posted included |
| ExpenseBooks.SyncSettles | apps/api/src/expenses/expenses.service.ts:367-405 | the delta is never refused and never skipped: it posts under a new key exactly when something is lacking, and the postings then add up to the expense's state |
| ExpenseBooks.SyncLeavesOthers | apps/api/src/expenses/expenses.service.ts:376-385 | no other expense's postings change |
| ExpenseBooks.DrawerMatchesBooks | apps/api/src/expenses/expense-books.ts:30-49 | what an expense takes from a drawer is what its postings credit to cash, the rest of it to the bank |
| ExpenseBooks.EditKeepsMode | apps/api/src/expenses/expenses.service.ts:212-218 | a paid expense always has a mode, and a chosen one survives a switch to pending and back |
| ExpenseBooks.MovedDrawerKeeps | apps/api/src/expenses/expenses.service.ts:338-365 | an edit or delete keeps every open drawer's payouts equal to the expenses and supplier payments naming it, and closed drawers as they were |
| ExpenseBooks.RewriteKeeps | apps/api/src/expenses/expenses.service.ts:208-251 | an edit or delete of a live expense is never refused by the books and leaves it in step |
| ExpenseBooks.CreateKeeps | apps/api/src/expenses/expenses.service.ts:176-206 | a new expense is never refused by the books and starts in step |
| ExpenseBooks.StepKeepsGood | apps/api/src/expenses/expenses.service.ts:95-121 | every transaction keeps the invariant: consistent books, dense keys, each expense in step or never posted, drawers that agree |
| ExpenseBooks.StepWritesOne | apps/api/src/expenses/expenses.service.ts:95-121 | a transaction leaves the expense it creates, edits or deletes in step, and every other with its row and its postings |
| ExpenseBooks.EveryRunStaysInStep | apps/api/src/expenses/expenses.service.ts:95-121 | after any run of expense writes, shift operations, supplier payments and other postings: the postings of every expense the run wrote add up to what it implies, every other is as it was and in step if it was; open drawers match what names them, closed drawers are unchanged |
| ExpenseBooks.InStepForEver | apps/api/src/expenses/expenses.service.ts:95-121 | a shop whose expenses are all in step keeps them all in step through any run |
| ExpenseBooks.InStepOnceWritten | apps/api/src/expenses/expenses.service.ts:372-374 | an expense created, edited or deleted at any moment is in step in every later state, one recorded before expenses were posted included |
| ExpenseBooks.LegacyShopIsGood | apps/api/src/expenses/expenses.service.ts:372-374 | expenses recorded before any was posted are a valid start |
| Receivables.CustomersService.RecordPayment | apps/api/src/customers/customers.service.ts:212-353 | a repayment with its replay check, transaction and race path is the specification step |
| Receivables.CustomersService.RecordOpeningBalance | apps/api/src/customers/customers.service.ts:397-496 | created, unchanged or refused, in the code's order |
| Receivables.CustomersService.SoftDelete | apps/api/src/customers/customers.service.ts:498-522 | only a customer who owes nothing is deleted |
| Receivables.SaleKeeps | apps/api/src/billing/billing.service.ts:276-304 | a credit sale is never refused by the books and keeps balances, rows and control account in step |
| Receivables.CreditLimitHolds | apps/api/src/billing/billing.service.ts:290-302 | only a manager sells past a customer's limit |
| Receivables.PaymentKeeps | apps/api/src/customers/customers.service.ts:233-302 | a repayment keeps everything in step and its posting is never refused |
| Receivables.AdvanceNeedsConsent | apps/api/src/customers/customers.service.ts:235-241 | without consent to an advance a repayment never leaves the customer in credit |
| Receivables.RepaymentReaches | apps/api/src/customers/customers.service.ts:292-302 | account by account, cash to the drawer and any other tender to the bank, against receivables only |
| Receivables.KeyPaysOnce | apps/api/src/customers/customers.service.ts:340-374 | whatever the replay check saw, a key records one row at most; a success names it with matching customer, amount and tender; a used key and a refusal change nothing |
| Receivables.OpeningKeeps | apps/api/src/customers/customers.service.ts:384-470 | an opening balance, owed or in advance, keeps everything in step |
| Receivables.CreditComesFirst | apps/api/src/billing/services/invoice-reversal.service.ts:170-176 | a refund cancels the most credit that it, the sale and the customer's balance allow |
| Receivables.ReturnKeeps | apps/api/src/billing/services/invoice-reversal.service.ts:170-305 | a return reverses no more credit than its sale still holds, never below zero, and keeps everything in step |
| Receivables.CancellationKeeps | apps/api/src/billing/services/invoice-reversal.service.ts:442-517 | so does a cancellation |
| Receivables.StepKeepsGood | apps/api/src/customers/customers.service.ts:206-211 | every transaction keeps the invariant |
| Receivables.EveryRunIsControlled | apps/api/src/customers/customers.service.ts:206-302 | after any run receivables equal the customers' balances, each customer's rows chain from zero to the balance, every balance is within the column's bound, and deleted customers owe nothing |
| Payables.SupplierPayablesService.PostWithPayable | apps/api/src/ledger/supplier-payables.service.ts:68-78 | posting and balance together, or neither; a replay moves nothing |
| Payables.SupplierPayablesService.Pay | apps/api/src/ledger/supplier-payables.service.ts:103-165 | a payment, its replay, or the first error in the code's order |
| Payables.PlanCoversBill | apps/api/src/vendor-bill-domain/repositories/vendor-bill.repository.ts:32-57 | a bill's plan moves the payable by what the bill is worth above its receipts, and posts exactly when neither its tax nor its expense lines are negative in sum, which validated lines never are |
| Payables.NoteIsCapped | apps/api/src/supplier-credit-domain/services/supplier-credit-financial.service.ts:58-70 | a return and its credit notes together take off the larger of the two, note after note |
| Payables.NotePosts | apps/api/src/supplier-credit-domain/services/supplier-credit-financial.service.ts:46-81 | a note's entries balance and take exactly its debit off the payable |
| Payables.DocumentKeeps | apps/api/src/ledger/supplier-payables.service.ts:60-78 | a document of a known supplier is never refused, posts once, and keeps every balance on the ledger |
| Payables.PaymentKeeps | apps/api/src/ledger/supplier-payables.service.ts:103-165 | so does a payment |
| Payables.PaymentNeverOverpays | apps/api/src/ledger/supplier-payables.service.ts:124-136 | a payment never takes a balance below zero, and a used key is answered with its one stored payment and changes nothing |
| Payables.SupplierPaymentReaches | apps/api/src/ledger/supplier-payables.service.ts:153-162 | account by account, cash from the drawer and any other tender from the bank, against payables only |
| Payables.CreationKeeps | apps/api/src/suppliers/suppliers.service.ts:96-132 | an opening balance reaches the supplier and the books together |
| Payables.ReceiptPosts | apps/api/src/grn-domain/services/grn-integration.service.ts:110-130 | goods received and goods sent back post balanced entries that move the payable by their value |
| Payables.StepKeepsGood | apps/api/src/ledger/supplier-payables.service.ts:30-45 | every transaction keeps the invariant |
| Payables.EveryRunFollowsLedger | apps/api/src/ledger/supplier-payables.service.ts:167-192 | after any run each supplier's balance is the opening plus the net payable credit of the supplier's own documents, the control account is the balances and the documents without a supplier, and no return is credited twice |
| Sessions.AuthService.Login | apps/api/src/auth/auth.service.ts:113-121 | a new family with one token |
| Sessions.AuthService.Refresh | apps/api/src/auth/auth.service.ts:129-169 | an uninterrupted refresh, with every refusal |
| Sessions.AuthService.RevokeWhere | apps/api/src/auth/auth.service.ts:173-173 | row by row, exactly the unrevoked rows of the user and family |
| Sessions.AuthService.Logout | apps/api/src/auth/auth.service.ts:172-176 | ends one family of one user |
| Sessions.AuthService.RevokeSession | apps/api/src/auth/auth.service.ts:206-214 | ends the family of the user's own token, leaves another user's alone |
| Sessions.AuthService.OnTokenReuse | apps/api/src/auth/auth.service.ts:247-254 | revokes everything and moves the version on, both or neither |
| Sessions.StepsAreRefresh | apps/api/src/auth/auth.service.ts:129-169 | uninterrupted, the protocol's three steps are the refresh method |
| Sessions.StepKeepsGood | apps/api/src/auth/auth.service.ts:113-254 | every step of every request keeps the protocol's invariant and takes nothing back |
| Sessions.NoSessionsIsGood | apps/api/src/auth/auth.service.ts:113-124 | users without sessions are a valid start |
| Sessions.EveryRunIsGood | apps/api/src/auth/auth.service.ts:113-254 | under every interleaving a family has at most one unrevoked token, rotated means revoked, one absolute expiry a family that no token outlives, and nothing revoked, rotated or swept comes back |
| Sessions.DeadFamilyStaysDead | apps/api/src/auth/auth.service.ts:178-185 | a family without a live token never gets one again, and none of its access tokens is accepted |
| Sessions.LogoutEndsSession | apps/api/src/auth/jwt.strategy.ts:54-58 | after a logout no access token of the session is ever accepted |
| Sessions.ReuseEndsEverything | apps/api/src/auth/auth.service.ts:241-254 | once reuse handling commits no earlier token is live or consumable in any later state, and no access token with a version read before it is accepted, signed or still to be signed |
| Sessions.RevocationEndsEverything | apps/api/src/auth/session-revocation.ts:16-37 | the same for a full revocation |
| Sessions.CommitDecides | apps/api/src/auth/auth.service.ts:148-166 | a cleared refresh is handled as reuse exactly when its row can no longer be consumed; otherwise it has one live successor of the same family and expiry, and a refusal changes nothing |
| Sessions.OnlyOnePresenterWins | apps/api/src/auth/auth.service.ts:149-153 | of two presenters of one token the second is handled as reuse, whatever happens between |
| Sessions.LogoutRaceIsHandledAsReuse | apps/api/src/auth/auth.service.ts:123-128 | a run where the token was never rotated and a logout alone makes the refresh count as reuse, which the comment does not say |
| CategoryPaths.PrefixIsAncestry | apps/api/src/categories/categories.service.ts:123-135 | one path starts with another exactly when its chain does: no id is cut in two |
| CategoryPaths.ContainsIsMembership | apps/api/src/categories/categories.service.ts:112-112 | a path holds an id between slashes exactly when the id is an ancestor |
| CategoryPaths.EscapedPatternIsPrefix | apps/api/src/categories/categories.service.ts:144-153 | the escaped LIKE pattern matches exactly the strings that start with the prefix, wildcards in ids included |
| Categories.CategoriesService.Create | apps/api/src/categories/categories.service.ts:32-57 | the row below its live parent, or the error and nothing |
| Categories.CategoriesService.Update | apps/api/src/categories/categories.service.ts:81-121 | the move, the edit that does not move, or the first error in the code's order |
| Categories.CategoriesService.UpdateDescendantsPath | apps/api/src/categories/categories.service.ts:131-155 | the one rewrite, pattern and early exit included |
| Categories.CategoriesService.SoftDelete | apps/api/src/categories/categories.service.ts:157-174 | only a live category without live children |
| Categories.PathIsAncestry | apps/api/src/categories/categories.service.ts:44-46 | in a good tree a live category's path and depth are exactly its chain of live ancestors, itself not among them |
| Categories.PatternMatchesDescendants | apps/api/src/categories/categories.service.ts:144-153 | with the moved row already rewritten, the rewrite's pattern matches exactly the descendants, never the moved row |
| Categories.MoveIsRefusedExactly | apps/api/src/categories/categories.service.ts:107-115 | a move is refused as under its own child exactly when the target is a descendant |
| Categories.MoveRewrites | apps/api/src/categories/categories.service.ts:117-154 | row by row: the moved row, the prefix and depth of exactly the rows below it, and nothing else |
| Categories.MoveKeepsTree | apps/api/src/categories/categories.service.ts:93-120 | a move keeps the tree |
| Categories.MoveReplantsSubtree | apps/api/src/categories/categories.service.ts:93-120 | after a move each category below keeps its chain from the moved one down, and every other chain is what it was |
| Categories.DeletionKeepsTree | apps/api/src/categories/categories.service.ts:161-173 | a deletion keeps the tree |
| Categories.EveryRunIsATree | apps/api/src/categories/categories.service.ts:32-174 | after any run of creations, moves and deletions every live path is the chain of live ancestors, depth its length, and nothing is above itself |
| StockRecon.ReconcileLedgerInvariant | apps/api/src/inventory/inventory-recon.service.ts:201-316 | a page repairs each row by its own compare-and-swap and counts drifts and repairs |
| StockRecon.EnsuredFacts | apps/api/src/inventory-domain/services/inventory-mutation.engine.ts:440-528 | opening a row never touches the cache or its version, and moves the rows' sum only by opening legacy stock, then by all of it |
| StockRecon.StepFacts | apps/api/src/inventory-domain/services/inventory-mutation.engine.ts:240-334 | every movement moves cache and rows alike; exactly the stock movements bump the version |
| StockRecon.RepairIsExact | apps/api/src/inventory/inventory-recon.service.ts:237-260 | under any interleaving a repair goes through exactly when no stock moved, changes nothing otherwise, and leaves cache and rows equal exactly when no step between sum and write opened legacy stock |
| StockRecon.AgreementLasts | apps/api/src/inventory/inventory-recon.service.ts:172-177 | once cache and rows agree nothing separates them again |
| StockRecon.LegacyOpeningSpoilsRepair | apps/api/src/inventory-domain/services/inventory-mutation.engine.ts:473-478 | a concrete reservation that makes a repair that goes through wrong |
| ReconScan.QueryIsPage | apps/api/src/inventory/recon-keyset.ts:21-32 | a page is the next matches in order; every other match lies after it |
| ReconScan.OnPageExactly | apps/api/src/inventory/recon-keyset.ts:21-32 | a row is on the next page exactly when it matches past the cursor with fewer than a page of matches before it |
| ReconScan.ShownAgainExactly | apps/api/src/inventory/recon-keyset.ts:11-32 | the next page shows a visited product exactly when its current row does so |
| ReconScan.PagesAscend | apps/api/src/inventory/recon-keyset.ts:26-28 | whatever happens to the table, keys only grow from page to page |
| ReconScan.VisitedTwiceIsRestamped | apps/api/src/inventory/recon-keyset.ts:11-14 | a product visited twice carried a later stamp the second time |
| ReconScan.VisitsTwiceExactly | apps/api/src/inventory/inventory-recon.service.ts:106-150 | whatever happens to the table between pages, a scan visits some product twice exactly when a page is read while the current row of a visited product has its place on it |
| ReconScan.RestOfScan | apps/api/src/inventory/inventory-recon.service.ts:106-150 | once the table stays as it is, the scan ends, and what it still visits is exactly what matches past its cursor |
| ReconScan.RestRevisitsExactly | apps/api/src/inventory/inventory-recon.service.ts:106-150 | it then visits again exactly those visited products whose rows are live, past the cursor and stamped no later than the start of the run, once each |
| ReconScan.RunReconciliation | apps/api/src/inventory/inventory-recon.service.ts:106-150 | the loop is the scan page by page; while changes are stamped after the start of the run it ends, visits no product twice and only rows of the starting window, and visits each of those that stays as it was while it reads |
| ReconScan.StampAtRunStartIsVisitedTwice | apps/api/src/inventory/recon-keyset.ts:11-14 | a change stamped at the run's very start is visited twice |
| ShopPaths.FindShopPath | apps/api/src/privacy/personal-data.ts:270-292 | breadth first over any relation graph, cycles included: a shortest chain to a row that names the shop, or none when there is none |
| ShopPaths.FoundIsShortest | apps/api/src/privacy/personal-data.ts:276-289 | the first relation found to lead to a shop ends a chain that no other beats |
| ShopPaths.NearIsSeen | apps/api/src/privacy/personal-data.ts:271-278 | every chain no longer than the distance still queued ends at a model already seen |
| ShopPaths.ChildModels | apps/api/src/privacy/personal-data.ts:255-295 | every eligible model that reaches a shop is listed once with a shortest chain, and no other |
| ShopPaths.UnownedModels | apps/api/src/privacy/personal-data.ts:298-302 | exactly the models left over |
| Checkout.FalseReplayExactly | apps/api/src/billing/billing.service.ts:895-931 | a different bill is taken for a retry exactly when it has no tenders and differs only by naming a place of supply where the stored one named none |
| Checkout.SameBillReplays | apps/api/src/billing/billing.service.ts:885-894 | a retry of the same bill is always taken for one, whatever cash was typed |
| Checkout.LegacyReplayExactly | apps/api/src/billing/billing.service.ts:889-894 | an invoice hashed in the old format replays exactly for equal terms, credit and tenders, cash included |
| Checkout.CreditBillReplaysAcrossStates | apps/api/src/billing/billing.service.ts:895-931 | a credit bill for another state is answered with the stored bill of this one |
| Checkout.BillingService.Checkout | apps/api/src/billing/billing.service.ts:182-192 | pre-check, transaction and race path of one request are the specification step |
| Checkout.RequestFacts | apps/api/src/billing/billing.service.ts:244-571 | a request bills a new key and moves the shop by its effect, or changes nothing |
| Checkout.UsedKeyChangesNothing | apps/api/src/billing/billing.service.ts:546-559 | a used key is answered with its own invoice or refused, and nothing moves |
| Checkout.EveryRunIsGood | apps/api/src/billing/billing.service.ts:182-571 | under any interleaving keys stay unique, stored invoices stay, every answer is right, and the world is what the new bills and the moves of others make of it |
| Checkout.KeyIsBilledOnce | apps/api/src/billing/billing.service.ts:182-571 | a key is billed at most once and moves the world at most once, never when it was billed before: the final world is the fold of the new invoices, each once, and of the moves of others, and every successful answer names the one bill |

## Left out

- decimal.js's 20 significant digits and any double rounding they cause (`packages/invoice-math/src/decimal.ts:4-9`): quotients are exact reals here.
- Parsing of numbers and strings: inputs are numbers, tenders are the four known kinds; the errors for anything else are not modelled.
- The legacy payment shape (`normalisePayment`) and `generateHash`; hashes are taken to be injective.
- The legacy branch of a stored line without persisted amounts (`lineAmounts`), and the order in which return lines are locked.
- Refund permissions: cashier caps and windows, GST deadlines, paused features, same-day cancellation, and the open shift a cash refund needs.
- Several shops: one shop's rows are modelled everywhere except `Categories`, which keeps the shop column. Row locks, isolation levels, retries and deadlocks: a rolled-back attempt is no step.
- Category operations run one after another; `create` does not lock the parent it read, and what a concurrent delete of it does is not modelled. Collation: `LIKE` compares characters exactly.
- `normaliseLines`, product loading, MRP checks, interstate resolution, the Redis pre-check and cache repair, numbering, audit rows, events, sockets and notifications.
- Shift counters other than expected cash and payouts.
- Stock: variants have no legacy opening, as in the code; stock lots, ledger entries and events are left out. The stock theorems take rows that are not soft-deleted, since nothing deletes one.
- The scan's cache invariant (`reconcileRedisInvariant`), drift records and alerts; ids and stamps are integers.
- The final sort of the child models by name, and the field tables of `classify`: no bearing on which models are found.
- Receivables: a replayed repayment also reloads the customer, which fails for one deleted since; and balances that predate the first row are taken as zero.
- Payables: the cap of a return's credit notes by validation, bill statuses and outstanding amounts. The drawer side of a supplier payment is in `ExpenseBooks`.
- Password checks, token randomness, signing, and the brute-force lock: a login is the step after a successful check.
- Sessions.AuthService.Refresh: states an uninterrupted refresh only; the interleaved one is the run of steps that `Sessions.EveryRunIsGood` is about.
- Checkout.BillingService.Checkout: what stock, credit and books do inside the transaction is one all-or-nothing effect here; their own rules are in the other modules.
