# GS_ERP accounting core, modelled and proved in Dafny

This project models the accounting core of GS_ERP and proves properties that span its functions:
the double-entry ledger and the reports computed from it, party and treasury statements, aging,
customer wallets, sale, return and invoice arithmetic, stored invoice totals, the product catalog,
the stock projection, code generation and the money and quantity printers.

Conventions of the model:

- A stored amount or quantity is an `int` counting units of 0.0001. A Decimal intermediate is an
  exact `real`; `Rounding.RoundHalfUp` is `quantize(..., ROUND_HALF_UP)`. Amounts are assumed to stay
  within the 28 significant digits of Python's decimal context, so intermediates are exact.
- Dates are day numbers. A table is a sequence or map of rows of one organization; a queryset is a
  filter over it; `SUM` is `Sums.Sum`, `GROUP BY` is `Sums.GroupSum`, `ORDER BY` and `list.sort` are
  `Sorting.Sort`, a stable sort. Strings are ordered by code point.
- `transaction.atomic` is all-or-nothing: a method that refuses leaves the state as it was, also after
  it had already written something.
- Primary keys handed out by the database and the clock are parameters.

Where the code departs from what it promises, the model follows the code and a lemma says exactly when
the promise holds:

- `_cash_flow_prefix` explains the change in cash exactly when the accounts matching none of its
  prefixes net to zero in the period; a depreciation account coded 14xx breaks it
  (`CashFlow.CashFlowIdentity`, `CashFlow.DepreciationIsUnexplained`).
- Reversal entries are stored at exchange rate 1, so a foreign-currency entry is cancelled in its own
  currency but in the functional one exactly when it moved each account alike in both
  (`Ledger.ReversalCancels`, `Ledger.ForeignReversalExample`).
- The stock rebuild subtracts every movement that is not INBOUND. It agrees with the movement log exactly
  when there is no incoming transfer and no positive adjustment (`Inventory.RebuildFaithfulIff`,
  `Inventory.RebuildMiscounts`); the signed sum it documents always does (`Inventory.DocumentedRebuildIs`).
  It also filters on a column `is_posted` that `StockMovement` does not have; the model takes every movement.
- Deleting a line of an issued invoice is not refused, and moving a line to another invoice does not
  recalculate the invoice it left; both leave stored totals stale exactly when the line was worth
  something (`DraftInvoice.DeleteFromPostedLeavesStale`, `DraftInvoice.MovedLineLeavesStale`, with
  `DraftInvoice.DeletedLineExample` and `DraftInvoice.MovedLineExample`). A saved row is written before the
  totals are refused, so a draft goes stale exactly when its lines would total less than zero
  (`DraftInvoice.WrittenSaveAgreesIff`, `DraftInvoice.RefusedSaveExample`).
- Splitting a return can refund more than the line cost (`SaleArithmetic.SplitReturnCanOverRefund`): some
  split does exactly when `ReturnSplits.MostRefund`, computed from the line, exceeds its total
  (`ReturnSplits.OverRefundIff`). Without discount and tax that has a closed form
  (`ReturnSplits.PlainOverRefundIff`); parts that need no rounding never over-refund
  (`ReturnSplits.UnroundedSplitIsExact`).
- An invoice total is below the sum of its lines exactly when a discount overshoots its line
  (`InvoiceCalculator.GrandTotalIsLineTotalsIff`, `InvoiceCalculator.DiscountCanOvershoot`).
- Wallet references are unique per wallet by intent, but the journal reference built from them is unique
  across the organization: a reference is accepted exactly when no journal entry holds it
  (`Wallet.AcceptedIffCovered`, `Wallet.ReferenceUsedOnce`). Wallets drift from the ledger by exactly the
  amounts moved with their own liability account as counterparty (`Wallet.RunMovesGap`,
  `Wallet.OwnLiabilityExample`).
- The adjusted trial balance hides inactive and non-postable accounts and is out of balance by exactly
  their net (`TrialBalance.ColumnsDifferByHidden`, `TrialBalance.InactiveAccountExample`).

## Model

| member | source | states |
|---|---|---|
| Rounding.RoundHalfUpCharacterized | apps/core/domain/value_objects.py:127-129 | quantizing gives the nearest unit, of two equally near the one farther from zero, and no other integer qualifies |
| Ledger.LineInstance.ComputeFunctionalAmounts | apps/finance/signals.py:23-32 | both functional sides are the rounded side times rate (a missing rate is 1); an empty side stays 0 and rate 1 changes nothing |
| Ledger.DraftAcceptedIff | apps/finance/domain/entities.py:100-161 | an entry is accepted exactly with two lines or more, one currency and equal debits and credits; each of its lines has one positive side |
| Ledger.PostedIs | apps/finance/application/use_cases/post_journal_entry.py:57-127 | a draft is posted exactly on an open day, on active postable accounts, under an unused reference; the entry carries its day, reference and lines in order |
| Ledger.PostKeepsBooks | apps/finance/application/use_cases/post_journal_entry.py:57-127 | posting a valid draft appends one entry with equal debits and credits and single-sided rows, all at one rate |
| Ledger.FilteredBooksBalance | apps/finance/domain/entities.py:138-161 | over any books of balanced entries, every filter on posting state and date selects equal debits and credits |
| Ledger.ReversalCancels | apps/finance/application/use_cases/reverse_journal_entry.py:84-124 | a reversal is balanced and cancels the entry on each account; in functional currency it does so exactly when the entry moved the account alike in both currencies |
| Ledger.ForeignReversalExample | apps/finance/application/use_cases/reverse_journal_entry.py:84-124 | a concrete entry at rate 2 that leaves 1 of its 2 functional units standing after its reversal |
| Ledger.ReversalAcceptedIff | apps/finance/application/use_cases/reverse_journal_entry.py:54-124 | a posted entry is reversed exactly on an open day and once; the reversal carries its lines with their sides swapped, in order, at rate 1 |
| Ledger.RunKeepsBooks | apps/finance/application/use_cases/post_journal_entry.py:54-153 | every ledger reached by any run of postings and reversals, refused ones included, is balanced with one rate per entry |
| CashFlow.CashFlowIdentity | apps/reports/application/selectors.py:2516-2622 | closing minus opening cash is operating + investing + financing minus the net of unclassified accounts; the sections explain it exactly when that net is zero |
| CashFlow.ClassifiedCashFlow | apps/reports/application/selectors.py:2516-2622 | with every account of the period classified the three sections equal the change in cash |
| CashFlow.FiguresAre | apps/reports/application/selectors.py:2548-2594 | each section is what the posted rows of the period gave on its own accounts (income, expenses, receivables, inventory and payables; fixed assets; long-term debt and equity), and opening and closing cash are the debits less credits on accounts coded 11 up to the day before and up to the last day |
| CashFlow.SectionsSeparate | apps/reports/application/selectors.py:2574-2594 | fixed assets against cash are investing only, debt and equity against cash financing only, income, expenses, receivables, inventory and payables against cash and each other operating only |
| CashFlow.DepreciationIsUnexplained | apps/reports/application/selectors.py:2574-2594 | a concrete depreciation entry for which the sections miss the change in cash by 100 |
| BalanceSheet.BalanceSheetAsOf | apps/reports/application/selectors.py:716-796 | one line per touched account, assets before equity before liabilities and by code, then the net profit; each section is its accounts' functional net; assets less liabilities and equity equal the functional net of all posted rows, and the warning fires exactly beyond 0.01 |
| BalanceSheet.AccountsAddUp | apps/reports/application/selectors.py:732-782 | the grouped account lines and the net-profit row regroup every posted row up to the date exactly once |
| BalanceSheet.SectionsAre | apps/reports/application/selectors.py:724-782 | the asset lines add up to the functional debits less credits of asset accounts, the liability lines to the reverse of liability accounts, the equity lines to that of equity, income and expense accounts |
| BalanceSheet.EntryNear | apps/finance/signals.py:23-32 | a balanced entry at one rate is out of balance in functional currency by at most half a unit per line, and by nothing at rate 1 |
| BalanceSheet.SheetNearBalance | apps/reports/application/selectors.py:784-794 | the sheet is out of balance by at most half of 0.0001 per posted line, and not at all when all rates are 1 |
| BalanceSheet.SmallBooksNeverWarn | apps/reports/application/selectors.py:786-794 | with at most 200 posted lines the out-of-balance warning cannot fire |
| BalanceSheet.EveryRunNearBalance | apps/reports/application/selectors.py:716-796 | the rounding bound holds for every ledger reachable by postings and reversals |
| IncomeStatement.Mapped | apps/reports/application/selectors.py:2262-2361 | the loop's totals are the sums of the lines on each side, its lines are the displayed ones, and net income is their difference |
| IncomeStatement.FallbackFromRows | apps/reports/application/selectors.py:2222-2264 | revenue is credits less debits of the period on income accounts, expenses debits less credits on expense accounts, net income their difference |
| IncomeStatement.LineFromRows | apps/reports/application/selectors.py:2310-2340 | a report line shows credits less debits of the period on its accounts, reversed if it is negated |
| IncomeStatement.SideIs | apps/reports/application/selectors.py:2298-2345 | which total a line feeds: by the types of its accounts, or by the words of its section when it has none |
| IncomeStatement.AgreeIffSameShift | apps/reports/application/selectors.py:2192-2360 | two weightings of accounts give equal totals on all balanced books over a chart exactly when they differ by one common shift |
| IncomeStatement.MappedMatchesFallbackIff | apps/reports/application/selectors.py:2192-2360 | mapped revenue (and expenses) equal the account-type fallback on all balanced books exactly when the mapping counts every account as its type does, up to one common shift |
| IncomeStatement.NetIncomeMatchesIff | apps/reports/application/selectors.py:2192-2360 | mapped net income equals the fallback net income on all balanced books exactly when revenue weight less expense weight counts every account as its type does, up to one common shift |
| IncomeStatement.CleanMappingMatches | apps/reports/application/selectors.py:2222-2360 | with every income and expense account on exactly one clean line, both reports give the same totals |
| GeneralLedger.GeneralLedgerOf | apps/reports/application/selectors.py:527-616 | exactly the period's lines in ledger order, each with opening plus everything up to it; opening and closing are the account_balance signed balances the day before and on the last day, and differ by debits less credits for assets and expenses, by credits less debits for liabilities, equity and income |
| GeneralLedger.BalanceByKind | apps/finance/application/selectors.py:32-79 | a signed balance is the posted debits less credits up to the date for assets and expenses, the reverse for liabilities, equity and income |
| GeneralLedger.AccountingEquation | apps/finance/application/selectors.py:32-43 | over any balanced books the signed amounts posted by a date to debit-normal accounts add up to those posted to credit-normal accounts |
| GeneralLedger.AssetsAndExpensesAreCovered | apps/finance/domain/entities.py:138-161 | over any balanced books what assets and expenses hold by a date equals what liabilities, equity and income hold |
| GeneralLedger.BalancesAddUp | apps/finance/application/selectors.py:32-79 | the signed balances of all accounts of a type add up to what the type holds |
| TrialBalance.AdjustedTrialBalance | apps/reports/application/selectors.py:2377-2457 | one line per touched, active, postable account, in code order, with its opening, period and closing pairs |
| TrialBalance.LinesFromRows | apps/reports/application/selectors.py:2377-2457 | the active, postable accounts with a posted row by the end of the period, each with its posted debits and credits before the period, in it and by its end |
| TrialBalance.ColumnsDifferByHidden | apps/reports/application/selectors.py:2394-2435 | each debit column exceeds its credit column by exactly minus the net of the accounts left out |
| TrialBalance.InactiveAccountExample | apps/reports/application/selectors.py:2394-2435 | a concrete entry with an inactive account whose report shows a debit of 1 and no credit |
| TrialBalance.ColumnsBalance | apps/reports/application/selectors.py:2377-2457 | when all touched accounts are postable and active, opening, period and closing debits equal credits |
| TrialBalance.RollForward | apps/reports/application/selectors.py:2437-2455 | every line's closing pair is its opening pair in the next adjacent period, and no other account opens there with a balance |
| TrialBalance.BooksRollForward | apps/reports/application/selectors.py:2377-2457 | over any books, reports of adjacent periods roll forward, and the first one's closing imbalance, the net of the hidden accounts, is the next one's opening imbalance |
| Running.Accumulate | apps/reports/application/selectors.py:590-604 | the running-balance loop lists the items in order with opening plus the sum up to each |
| Running.PeriodMoves | apps/reports/application/selectors.py:1373-1407 | a period's rows move the balance from the aggregate before it to the aggregate after it |
| PartyStatement.CustomerStatement | apps/reports/application/selectors.py:799-968 | unknown customers are refused; otherwise the statement opens at the prior balance and runs, day by day, through exactly the period's invoices, receipts, credit notes and debit notes, each by id |
| PartyStatement.VendorStatement | apps/reports/application/selectors.py:1125-1293 | the same for vendors, with the opening balance added up in loops |
| PartyStatement.SortByDate | apps/reports/application/selectors.py:937 | the stable sort by date keeps invoices, payments, credit notes and debit notes of one day in that order |
| PartyStatement.ChosenInOrder | apps/reports/application/selectors.py:876-935 | each table is read by date and then id, every counted document of the period exactly as stored |
| PartyStatement.SortedIsOrdered | apps/reports/application/selectors.py:876-937 | sorting the four gathered tables by date alone gives each day its invoices, payments, credit notes and debit notes, each by id |
| PartyStatement.OrderedIsAll | apps/reports/application/selectors.py:873-937 | merging and sorting lose no document and invent none |
| PartyStatement.LinesAre | apps/reports/application/selectors.py:876-935 | a statement shows invoices issued, part-paid, paid or credited, payments posted or reversed with their cancellation, and notes issued or applied, each with its amount on its side, and nothing else |
| PartyStatement.DocumentShown | apps/reports/application/selectors.py:876-935 | a document of the period has its line exactly when its status is one its table shows, and no other line of its kind carries its id |
| PartyStatement.LinesOnce | apps/reports/application/selectors.py:876-937 | with unique ids no line occurs twice |
| PartyStatement.StatementChains | apps/reports/application/selectors.py:831-967 | a statement closes at the opening balance of any statement starting the day after |
| PartyStatement.StatementBalances | apps/reports/application/selectors.py:831-873 | a statement opens and closes at invoices and debit notes less posted payments and credit notes, in the named statuses, before its first day and up to its last |
| PartyStatement.InvoiceStatusInvisible | apps/reports/application/selectors.py:836-845 | paying, part-paying or crediting an invoice moves no balance; any other status takes its amount off |
| PartyStatement.InvoiceCounts | apps/reports/application/selectors.py:876-890 | an invoice dated in the period, paid or not, leaves the opening alone and raises the closing by its amount |
| PartyStatement.ReversedPaymentInvisible | apps/reports/application/selectors.py:846-854 | a reversed payment counts for nothing in the balance before any date |
| PartyStatement.StatementsWithoutReversed | apps/reports/application/selectors.py:897-917 | with or without a reversed payment, before or inside the period, a statement opens and closes alike |
| PartyStatement.ReversalFollowsPayment | apps/reports/application/selectors.py:897-917 | a reversal line directly follows the payment it cancels, and the balance after it is the one before the payment |
| Treasury.CashboxLedger | apps/reports/application/selectors.py:1356-1417 | an unknown cashbox is refused; otherwise the period's posted transactions in order with running balance; closing is the next day's opening |
| Treasury.CashboxFromTxns | apps/reports/application/selectors.py:1364-1381 | the ledger opens and closes at the opening balance plus posted inflows less posted outflows and adjustments |
| Treasury.BankLedger | apps/reports/application/selectors.py:1445-1579 | an unknown bank account is refused; otherwise three tables merged by date and tag without loss; closing is the next day's opening |
| Treasury.BankFromTables | apps/reports/application/selectors.py:1464-1494 | the ledger opens and closes at the opening balance plus posted inflows and receipts less other posted transactions and payments |
| Treasury.BankMovementsMove | apps/reports/application/selectors.py:1464-1496 | the merged movements of a period account for the whole change of the bank balance |
| Treasury.TagsOrder | apps/reports/application/selectors.py:1498-1551 | sorting by tag puts receipts before transactions before payments on one date, each by id, for ids below 10^12 |
| Aging.AgingReport | apps/reports/application/selectors.py:1000-1047 | one row per party with an open invoice, with its five bucket sums and total, in non-increasing total |
| Aging.AgingConserves | apps/reports/application/selectors.py:1000-1047 | the rows' totals add up to all counted open amounts, and every row is positive |
| Aging.ReportFromInvoices | apps/reports/application/selectors.py:1000-1047 | each row's buckets are the party's open amounts not yet due and 1 to 30, 31 to 60, 61 to 90 and over 90 days overdue; every party that owes has a row; the totals add up to what is owed |
| Aging.ArAging | apps/reports/application/selectors.py:971-1047 | the receivables report over issued, partially paid and credited invoices, conserving their open amounts |
| Aging.ApAging | apps/reports/application/selectors.py:1050-1122 | the payables report over issued and partially paid invoices, conserving their open amounts |
| Wallet.WalletService.Execute | apps/crm/application/use_cases/record_wallet_operation.py:77-156 | an accepted operation posts, logs and moves the balance together, up by the amount for deposits, refunds and positive adjustments, down by it for redemptions and negative ones, which the balance must cover; any refusal, also one found after posting, restores everything |
| Wallet.OperationMoves | apps/crm/domain/entities.py:109-119 | by operation: what is added to or taken off the one wallet, which account is debited and which credited, the logged transaction, and that nothing else changes |
| Wallet.GapMoves | apps/crm/application/use_cases/record_wallet_operation.py:158-171 | wallets minus ledger on an account changes by the operation's delta if the account is the counterparty, and by nothing otherwise |
| Wallet.RunMovesGap | apps/crm/application/use_cases/record_wallet_operation.py:77-171 | over any run the gap between wallets and ledger on an account grows by exactly the deltas of accepted operations that use it as counterparty |
| Wallet.OwnLiabilityExample | apps/crm/application/use_cases/record_wallet_operation.py:158-171 | a concrete accepted deposit against the wallet's own liability account after which the ledger misses 100 |
| Wallet.RunKeepsGap | apps/crm/application/use_cases/record_wallet_operation.py:1-25 | over any run whose counterparties are never the liability account, wallet balances keep matching credits minus debits |
| Wallet.RunKeepsSound | apps/crm/application/use_cases/record_wallet_operation.py:77-156 | over any run balances stay non-negative and equal the sum of their logged deltas, references stay unique and backed by journal entries |
| Wallet.AcceptedIffCovered | apps/crm/application/use_cases/record_wallet_operation.py:102-112 | with open date and postable accounts an operation is accepted exactly when the balance covers it and no journal entry holds its reference |
| Wallet.ReferenceUsedOnce | apps/finance/infrastructure/models.py:210-214 | a reference held by any journal entry, so one used on any wallet, is refused on every wallet, and the per-wallet uniqueness never decides |
| SaleArithmetic.LineAmountsInRange | apps/sales/domain/entities.py:127-150 | rounding keeps 0 <= discount <= subtotal and 0 <= tax <= discounted amount |
| SaleArithmetic.DraftAcceptedIff | apps/sales/domain/entities.py:185-223 | a draft is accepted exactly with a line, one currency, non-negative charges and an order discount within the discounted lines |
| SaleArithmetic.DraftTotalsAgree | apps/sales/domain/entities.py:197-256 | for every accepted draft the grand total equals net revenue plus tax, equals the line totals less order discount plus shipping, and covers tax and shipping |
| SaleArithmetic.TotalsFromInputs | apps/sales/domain/entities.py:228-256 | each column is within half a unit per line of prices times quantities, of the discount percentages and of the tax rates; the grand total is their signed sum with order discount and shipping |
| SaleArithmetic.QuotationMatchesSale | apps/sales/domain/sale_quotation.py:76-81 | a quotation costs what the sale of the same lines without order discount and shipping costs |
| SaleArithmetic.RefundTotal | apps/sales/domain/sale_return.py:174-182 | the loop adds up the line totals and takes off the restocking fee |
| SaleArithmetic.TotalNearRate | apps/sales/domain/sale_return.py:81-103 | a line total is within 2.5 units of the unrounded price of its quantity |
| SaleArithmetic.ReturnInParts | apps/sales/domain/sale_return.py:81-103 | returning a line in k parts refunds within 2.5 (k + 1) units of its total, exactly it for k = 1 |
| SaleArithmetic.SplitReturnCanOverRefund | apps/sales/domain/sale_return.py:81-103 | a concrete line whose two halves refund twice its total |
| ReturnSplits.MostRefundIsGreatest | apps/sales/domain/sale_return.py:81-103 | a number computed from the line, at any discount and tax, bounds the refund of every split and is reached by one |
| ReturnSplits.OverRefundIff | apps/sales/domain/sale_return.py:81-103 | some split refunds more than the line cost exactly when that number exceeds the line total |
| ReturnSplits.PlainOverRefundIff | apps/sales/domain/sale_return.py:81-87 | without discount and tax: the greatest refund in closed form, and over-refunding is possible exactly when the odd price has more threshold quantities than units |
| ReturnSplits.UnroundedSplitIsExact | apps/sales/domain/sale_return.py:81-103 | parts whose subtotal, discount and tax need no rounding refund together exactly the line total |
| SaleArithmetic.PartialReturnBounded | apps/sales/domain/sale_return.py:81-103 | a single partial return refunds between zero and the line's total |
| InvoiceCalculator.Calculate | apps/sales/domain/invoice_calculator.py:65-110 | the loop's totals and line results; the grand total is the line totals less the discounts' excess over their lines, and for stored lines whose discounts fit it is within a stated bound of the sum of (quantity * price - discount) * (1 + rate / 100) |
| InvoiceCalculator.LineFromInputs | apps/sales/domain/invoice_calculator.py:80-92 | for four-decimal inputs: subtotal within half of 0.0001 of quantity times price, taxable amount subtotal less discount or 0, tax within half of 0.0001 of its percentage, total taxable plus tax |
| InvoiceCalculator.GrandTotalNear | apps/sales/domain/invoice_calculator.py:65-110 | the grand total is within 0.00005 * (2 + abs(rate) / 100) per line of the unrounded total |
| InvoiceCalculator.GrandTotalIsLineTotalsIff | apps/sales/domain/invoice_calculator.py:52-63 | the grand total is the sum of line totals exactly when every discount fits its line |
| InvoiceCalculator.DiscountCanOvershoot | apps/sales/domain/invoice_calculator.py:65-110 | a concrete line shown as 0 on an invoice totalling -1 |
| InvoiceCalculator.OrderIndependent | apps/sales/domain/invoice_calculator.py:65-110 | the totals do not depend on the order of the lines |
| InvoiceCalculator.TaxTotalNear | apps/sales/domain/invoice_calculator.py:83-101 | the tax total is within half of 0.0001 per line of the unrounded tax |
| DraftInvoice.InvoiceStore.RecalculateTotals | apps/sales/infrastructure/invoice_models.py:202-218 | the aggregates over the invoice's lines are stored, or nothing is when the grand total would be negative |
| DraftInvoice.InvoiceStore.SaveLine | apps/sales/infrastructure/invoice_models.py:277-290 | save with its hook: a refusal before the write changes nothing, a refused recalculation leaves the row written, otherwise the row is stored, its invoice agrees and other rows and invoices are as before |
| DraftInvoice.InvoiceStore.DeleteLine | apps/sales/infrastructure/signals.py:29-31 | delete with its hook in one transaction, whatever the invoice's status: refused it changes nothing, otherwise one row is gone and a draft agrees |
| DraftInvoice.AcceptedSave | apps/sales/infrastructure/invoice_models.py:277-290 | when a save goes through (draft, allowed row, free sequence, non-negative total), what it stores, and that other rows and invoices stay |
| DraftInvoice.RunKeepsDrafts | apps/sales/infrastructure/signals.py:14-31 | over any run that keeps lines on their invoice and saves only rows that leave a non-negative total, drafts' stored totals equal the sums over their lines |
| DraftInvoice.NonNegativeRunKeepsDrafts | apps/sales/infrastructure/signals.py:14-31 | the same over any run whose lines stay and have non-negative subtotal and tax |
| DraftInvoice.WrittenSaveAgreesIff | apps/sales/infrastructure/signals.py:24-26 | a written row leaves its draft in agreement exactly when the lines' total is non-negative; otherwise the row stays and the totals do not move |
| DraftInvoice.RefusedSaveExample | apps/sales/infrastructure/signals.py:24-26 | a concrete line of -5 stored on a draft that still shows 0 |
| DraftInvoice.MovedLineLeavesStale | apps/sales/infrastructure/signals.py:24-26 | an invoice a line was moved away from still agrees exactly when the line was worth nothing |
| DraftInvoice.MovedLineExample | apps/sales/infrastructure/signals.py:24-26 | a concrete moved line after which a draft without lines shows 5 |
| DraftInvoice.DeleteFromPostedLeavesStale | apps/sales/infrastructure/signals.py:14-31 | deleting a line of a non-draft invoice goes through and leaves totals that agree exactly when the line was worth nothing |
| DraftInvoice.DeletedLineExample | apps/sales/infrastructure/signals.py:29-31 | a concrete deletion after which an issued invoice without lines shows 5 |
| Catalog.NewRecipe | apps/catalog/domain/entities.py:107-124 | accepted exactly for a positive owner and distinct components other than it; which error the first offending component gives |
| Catalog.CatalogStore.Execute | apps/catalog/application/use_cases/create_product.py:42-90 | product, recipe and components are saved together or not at all |
| Catalog.CreateAcceptedIff | apps/catalog/application/use_cases/create_product.py:42-90 | a product is created exactly when its code is new, its category, brand, unit and tax exist and it has a recipe of distinct existing products if and only if it is a combo |
| Catalog.CreatedIs | apps/catalog/application/use_cases/create_product.py:56-90 | what a created product leaves: its code and kind, its components if it is a combo, all else as before |
| Catalog.CreateKeepsAcyclic | apps/catalog/application/use_cases/create_product.py:73-88 | adding a fresh product whose components exist creates no cycle, direct or transitive |
| Catalog.RunKeepsSound | apps/catalog/application/use_cases/create_product.py:1-9 | every run keeps the combo graph acyclic and combos exactly the products with a non-empty recipe |
| UniqueCode.SeedIsCode | apps/catalog/application/services/csv_io.py:40-43 | a seed is safe runs joined by single underscores, within the limit unless the fallback itself is longer |
| UniqueCode.SeedWords | apps/catalog/application/services/csv_io.py:40-43 | a seed is the text's runs of letters and digits, upper-cased, in order and joined by underscores, cut to the limit, or ITEM |
| UniqueCode.SeedKeepsCodes | apps/catalog/application/services/csv_io.py:40-43 | a well-formed code within the limit is its own seed |
| UniqueCode.CandidateInjective | apps/catalog/application/services/csv_io.py:51-54 | distinct counters give distinct candidates despite truncation |
| UniqueCode.UniqueCodeFor | apps/catalog/application/services/csv_io.py:46-55 | the loop stops within one more candidate than there are codes, at the first free one, within the limit when the numerals fit |
| Printing.MoneyRoundTrip | common/templatetags/erp_money.py:42-54 | parsing money printed without a currency gives the amount, of any exponent, rounded half-even to two places |
| Printing.GroupPlaces | common/templatetags/erp_money.py:52 | every fourth character from the right is a comma, and no other |
| Printing.MoneyWithCurrencyRefused | common/etl/csv_io.py:84-94 | with a currency code behind it the printed amount does not parse |
| Printing.QtyRoundTrip | common/templatetags/erp_money.py:58-71 | a printed quantity parses back exactly when it has at most four decimals, otherwise to within half of 0.0001 |
| Printing.RoundHalfEvenNear | common/templatetags/erp_money.py:47 | the default rounding gives the nearest multiple and breaks ties to even |
| Printing.QuantizeIs | common/templatetags/erp_money.py:47 | quantizing keeps the sign and gives the nearest number with that many places, the even one of two, and the same number if it has no more |
| Inventory.SignIsDirection | apps/inventory/domain/entities.py:112-116 | the item ledger's sign rule is the movement's direction on every valid movement |
| Inventory.ItemLedger | apps/reports/application/selectors.py:1712-1784 | an unknown product is refused; otherwise exactly the period's movements in order with running quantity; closing is the next day's opening |
| Inventory.AllWarehouses | apps/reports/application/selectors.py:1741-1760 | the all-warehouse quantity is the sum of the warehouses' quantities |
| Inventory.TransferNeutral | apps/reports/application/selectors.py:1731-1737 | a transfer pair of equal quantity leaves the all-warehouse quantity unchanged |
| Inventory.StockStore.RecordMovement | apps/inventory/application/use_cases/record_stock_movement.py:62-141 | an accepted movement is logged and applied together; a refused one leaves log and rows alone |
| Inventory.RecordAcceptedIff | apps/inventory/application/use_cases/record_stock_movement.py:62-101 | a movement is accepted exactly when product and warehouse exist and the logged stock covers it |
| Inventory.RunKeepsProjection | apps/inventory/infrastructure/models.py:7-13 | over any run each on-hand row is non-negative and equals the signed sum of its log |
| Inventory.LedgerClosesAtOnHand | apps/reports/application/selectors.py:1741-1784 | the item ledger of a pair closes at its on-hand quantity |
| Inventory.StockStore.Rebuild | apps/inventory/infrastructure/tasks.py:41-68 | one row per logged pair is written with the rebuild's sum and counted as updated or created; a negative sum refuses the whole rebuild |
| Inventory.RebuildFaithfulIff | apps/inventory/infrastructure/tasks.py:43-56 | the rebuild agrees with the log exactly when there is no incoming transfer and no positive adjustment |
| Inventory.DocumentedRebuildIs | apps/inventory/infrastructure/tasks.py:20-31 | the documented signed sum writes each pair's item-ledger closing quantity and changes no recorded stock; the written rebuild gives that table exactly when no movement is lost |
| Inventory.FaithfulRebuildChangesNothing | apps/inventory/infrastructure/tasks.py:20-31 | on a recorded stock such a rebuild is accepted and changes no row |
| Inventory.RebuildIdempotent | apps/inventory/infrastructure/tasks.py:20-31 | rebuilding twice is rebuilding once |
| Inventory.RebuildMiscounts | apps/inventory/infrastructure/tasks.py:43-56 | a concrete log of 13 that the rebuild stores as 7 |

## Left out

- ORM, SQL, row locks, concurrency and retry machinery; tenancy, permissions, audit events and user interface.
- Column widths (18 digits, text lengths), which make the database refuse very large values.
- Foreign keys are checked as each row is saved, as MySQL does; a database that defers them reports another error first.
- A failed recalculation leaves the saved line in place, as it does outside a transaction (`ATOMIC_REQUESTS` is off).
- The display lines of the cash-flow statement; their amounts are the statement's own figures.
- `_cash_flow_mapped`: the sign of its liability and equity lines depends on configuration.
- `trial_balance`: it drops accounts without period movement, so the whole-ledger claims are proved of the adjusted one.
- `lines_subtotal`, `lines_discount` and `lines_tax` of a sale return: the same loop as `refund_total`.
- `to_minor_units`, `from_minor_units` and `rounded_to_minor_units` of Money, and Quantity arithmetic.
- Weighted-average cost, item valuation, purchase documents (line for line the sales arithmetic), status transition tables.
- CSV importers, which can also create combo products without a recipe; the catalog runs are runs of CreateProduct.
- The wallet's currency check after it was looked up by currency, which cannot fail.
- Only ASCII letters are upper- or lower-cased, and only blanks, tabs and line breaks are trimmed.
- Day boundaries of stock movements are those of UTC.
- ParseDecimal: reads a sign, digits and a point; exponents, infinities, underscores and non-ASCII digits are not modelled.
- Inventory.StockStore.Rebuild: the query's filter on the missing column `is_posted` makes the code raise; the model runs it without the filter.
- Which of several violated table constraints the database reports first.
