# A verified model of the gateway

The gateway sells tokens to tenants, admits their requests, forwards them upstream and bills what
they used. This project models the parts of it that hold state under retries, interleavings and
rounding, and proves what every run of them keeps.

- **Billing.** `Accounts.dfy` holds one account's rows (plans, subscriptions, wallet, ledger, cursor)
  and says, operation by operation, what is left behind. `BillingService.dfy` is the service that
  updates those rows in place; each of its methods is proved to leave exactly that. On top of it:
  the charging waterfall (`Waterfall.dfy`), its conversions between cents and tokens (`Pricing.dfy`) and
  their rounding (`Rounding.dfy`), double-entry conservation over every run
  (`Conservation.dfy`), agreement of the funding gate with the waterfall (`FundingGate.dfy`), the
  optimality of spending the earliest expiry first (`EarliestExpiry.dfy`; `RollingFirst.dfy` shows what
  happens when the rolling pass, which always pays first, is not the first to expire), reconciliation
  behind its cursor (`Reconcile.dfy`), billing for exactly what was metered (`Metered.dfy`) and the two
  payment webhooks (`Payments.dfy`). What single operations write is stated over the fields of the rows,
  without the functions that compute it: charges in `Charges.dfy`, purchases and settlements in
  `Purchases.dfy`, payment notices in `Deliveries.dfy`.
- **Admission.** `Admission.dfy` is the protocol of many concurrent requests as a state machine over
  the shared tables; `StreamFinality.dfy` follows one stream through every interleaving;
  `Pipeline.dfy` is the executor whose callbacks take those steps in place. Their parts are
  `Budget.dfy` (daily budget rows), `Idempotency.dfy`, `Permits.dfy` (upstream permits and tenant
  slots) and `StreamRegistry.dfy`; `Outcomes.dfy` says how each request is answered and what it leaves.
- **Rate limiting.** `RateLimit.dfy` is the memory-bounded token bucket limiter beside the obvious
  unbounded one; `TenantLimits.dfy` is the registry that gives every tenant a limiter of its own.
- **Metering.** `UsageMeter.dfy` reads usage out of an event stream that arrives in arbitrary chunks
  (single `data:` lines, a subset of sections 9.2.5 and 9.2.6 of the WHATWG HTML standard);
  `Readings.dfy` says where in the JSON and on the line it finds what it counts.
- **Two algorithms.** `Markdown.dfy` splits chat text into blocks; `Backfill.dfy` is the migration of
  plan memberships to model groups.

Conventions. Times are milliseconds; each operation takes the instant it runs at. UUIDs are fresh
numbers, and a subscription's id is its position. A UNIQUE constraint is a key that `Record` checks
before it inserts, a transaction is a snapshot that an error restores, and an exception is an `Err`
or `None`. Where the code steps through rows in a loop, the model has the loop, its invariants, and a
function or predicate that says what the loop computes. A plan's rate is a fraction, cents per tokens,
with two conversions that may be any functions whose results are floor and ceiling of a number within one
part in 2^51 of the exact quotient: the code computes them with two operations on doubles, whose error
is at most that (`TokensAreNear`, `CentsAreNear`). A bound "up to one token and at most one more in 2^50"
is written `1 + 2 * n / PRECISION` and equals 1 for every `n` below 2^50. Refill is exact: tokens of the
limiter are scaled by 60 000, so that one millisecond refills exactly `rpm` units.

Three promises of the code or its comments turned out not to hold on all inputs. Each has a concrete
input and the condition under which the code meets it.

- The funding gate admits accounts that can fund nothing: a free monetary-pack plan opens it for its
  whole period (`MonetaryPackOpensGate`, exactly when: `OveradmitsExactly`).
- "A row can be late without being free" (`src/billing/service.ts:914-915`): usage settled after the
  cursor has passed its reservation is never billed (`LateSettlementMissed`, `LateRowNeverBilled`;
  exactly when: `MissesNothingExactly`).
- The capacity hint of a full limiter is one millisecond short when the oldest entry has a whole
  number of seconds left, because eviction needs strictly more than the idle period
  (`CapacityHintFallsShort`, exactly when: `CapacityHintExact`).

That money is "never silently lost or invented" (`src/billing/service.ts:726-731`) holds up to rounding. The
cents a charge takes differ from the exact price of the tokens they cover by at most one cent, and a
charge that leaves cents in the wallet leaves at most one token unfunded, plus the tiny part above;
conversions that compute the exact quotients lose nothing (`CentsWellSpent`, `ShortfallExact`,
`ShortfallExhausts`). Both bounds are reached at 100 cents per million tokens (`RoundingShows`). They rest on the
bound the plan schema puts on rates (`src/billing/plan-input.ts:39`).

## Model

| member | source | states |
|---|---|---|
| Pricing.PriceAdjunction | src/billing/service.ts:289-297 | the conversion is refused exactly without a rate; the exact quotients are adjoint: a balance buys a quantity if and only if it reaches that quantity's price |
| Pricing.PriceCovers | src/billing/service.ts:290-297 | whatever the rounding, the price of a quantity buys all of it but one token and at most one more in 2^50; with exact conversions all of it |
| Pricing.PurchaseCostsBalance | src/billing/service.ts:290-297 | for every rate a plan can store, what a balance exactly buys costs exactly the balance |
| Pricing.PurchaseWithinBalance | src/billing/service.ts:290-297 | whatever the rounding, what a balance buys costs at most a cent more than the balance, and at most three more in 2^51 |
| Pricing.CoversAllItCan | src/billing/service.ts:670-686 | whatever the rounding, the cents leg covers what the whole balance could exactly buy of the request, up to one token and at most one more in 2^50; with exact conversions precisely that |
| Pricing.EnoughOrAll | src/billing/service.ts:670-686 | the cents leg spends the whole balance, or it covers the request up to one token and at most one more in 2^50 |
| Pricing.CentBuysNine | src/billing/plan-input.ts:30-39 | within the bound on rates every cent buys at least nine tokens whatever the rounding, so any positive balance buys something |
| Pricing.CentBuysTen | src/billing/plan-input.ts:30-39 | and is exactly worth at least ten |
| Pricing.SpentIsPrice | src/billing/service.ts:670-686 | whatever the rounding, the cents that leave the balance are the exact price of the tokens they cover up to one cent and at most one more in 2^51, exactly the price with exact conversions, and positive exactly when they cover something |
| Pricing.ExactIsRounded | src/billing/service.ts:290-297 | the exact quotients are among the conversions these results speak of |
| Rounding.TokensAreNear | src/billing/service.ts:290-293 | whatever a division and a multiplication of doubles return within their unit roundoff, the floor is one of the allowed conversions to tokens |
| Rounding.CentsAreNear | src/billing/service.ts:294-297 | and the ceiling one of the allowed conversions to cents |
| Rounding.RoundingShows | src/billing/service.ts:290-297 | both bounds are reached: at 100 cents per million 70 000 tokens take 8 cents instead of 7, and 250 cents leave one of 2 010 000 tokens open |
| WaterfallProofs.DrainGives | src/billing/service.ts:632-668 | the pack loop takes the smaller of what is asked and what the ordered packs have available |
| WaterfallProofs.DrainTakes | src/billing/service.ts:632-668 | what it takes leaves exactly those packs' availability |
| WaterfallProofs.DrainFrame | src/billing/service.ts:632-668 | rows outside the order are untouched |
| WaterfallProofs.DrainAt | src/billing/service.ts:632-668 | each pack pays exactly what the packs before it left open, and is untouched (its timer not started) when they left nothing |
| WaterfallProofs.LegsInOrder | src/billing/service.ts:606-686 | rolling pass, packs and wallet each pay the minimum of their capacity and what the earlier legs left, the cents leg is asked for exactly the rest, the five parts add up to the charge, and no row changes identity |
| WaterfallProofs.ShortfallExact | src/billing/service.ts:606-709 | whatever the rounding, the unfunded part is what the charge exceeds the account's whole capacity by, up to one token and at most one more in 2^50; exactly that when no cents, no rate or exact conversions are involved |
| WaterfallProofs.ShortfallExhausts | src/billing/service.ts:606-709 | an unfunded part leaves every drawable window and the wallet empty, and with a rate plan the cents too, unless the part is one token (and at most one more in 2^50) that rounding kept back |
| WaterfallProofs.CentsWellSpent | src/billing/service.ts:670-738 | without a rate plan a charge moves no cent; with one the cents it takes are the exact price of the tokens they cover up to one cent and at most one more in 2^51, exactly that price with exact conversions, and it takes none for nothing |
| WaterfallProofs.CentsPaySomething | src/billing/service.ts:670-686 | a charge covers something with cents if and only if the legs before left something open and there are cents and a rate plan |
| Charges.CentsAtOldestRate | src/billing/service.ts:670-738 | cents are spent at the rate of the oldest live subscription with a rate, for what the other legs left open, and not at all when no subscription has one |
| Charges.RowsAfterCharge | src/billing/service.ts:606-668 | row by row: only live packs and the oldest live pass change, only their used tokens and a waiting timer, started now; only a window open by its own fields pays, and never past its allowance; the list of payers is exact |
| Charges.ShortfallUsesUp | src/billing/service.ts:606-709 | on a shortfall every payer with an open window has paid to its last token |
| Charges.EarlierPacksFirst | src/billing/service.ts:632-668 | no pack is touched while a pack that ends earlier, or ends with it and is older, still holds tokens in an open window |
| Charges.ShortfallMarks | src/billing/service.ts:709-723 | without a shortfall no status changes; with one exactly the rows that paid, or else the newest live row, become past due |
| Charges.ChargeWrites | src/billing/service.ts:594-708 | the ledger rows of a charge, field by field: what was funded, the cents taken, what was not funded, and the balances after |
| BillingServices.BillingService.StartSubscriptionFor | src/billing/service.ts:345-411 | the purchase leaves the rows the specification gives, with the same refusals, and nothing on refusal |
| BillingServices.BillingService.StartDurationPackFor | src/billing/service.ts:462-491 | the same for a duration pack |
| BillingServices.BillingService.ActivateTimer | src/billing/service.ts:418-437 | the first use starts a pending timer and only that |
| BillingServices.BillingService.ResetTimer | src/billing/service.ts:498-520 | a reset restarts the window, restores the allowance and uses one reset up, or refuses |
| BillingServices.BillingService.CancelAll | src/billing/service.ts:522-528 | afterwards no subscription is live, and no row has changed in anything but its status |
| FundingGate.CancelLeavesWallet | src/billing/service.ts:522-528 | after a cancellation exactly the wallet pays: the shortfall of any charge is what exceeds it, and held cents stay unspent |
| BillingServices.BillingService.CreditWallet | src/billing/service.ts:774-805 | a credit is refused when not positive, ignored when its key is known, and otherwise booked with the balance after it |
| BillingServices.BillingService.SpendFrom | src/billing/service.ts:613-668 | one row's timer starts and its allowance is drawn |
| BillingServices.BillingService.SpendRolling | src/billing/service.ts:606-631 | the rolling leg |
| BillingServices.BillingService.SpendPacks | src/billing/service.ts:632-668 | the pack loop leaves the rows, the amount and the list of spent packs of the specified drain |
| BillingServices.BillingService.PaygRatePlan | src/billing/service.ts:732-738 | the loop finds the rate of the oldest live subscription whose known plan carries one, and none exactly when no subscription does |
| BillingServices.BillingService.SpendCentsFor | src/billing/service.ts:670-686 | cents spent and tokens covered; `Charges.CentsAtOldestRate` says at which row's rate |
| BillingServices.BillingService.SpendWaterfall | src/billing/service.ts:606-686 | the legs in order are the specified waterfall, and the rows, wallet and cents are reduced by exactly what it takes |
| BillingServices.BillingService.ChargeUsage | src/billing/service.ts:587-724 | a charge: nothing for a known key, a zero row for zero units, otherwise waterfall, debit, and on a shortfall its own row and past-due marks |
| BillingServices.BillingService.ReconcileUsage | src/billing/service.ts:917-958 | the batch is charged row by row and the cursor moves to its latest row |
| BillingServices.BillingService.CheckFunded | src/billing/service.ts:1011-1024 | reconciliation first, then the gate's answer over all rows |
| BillingServices.BillingService.Settle | src/billing/service.ts:807-873 | a payment snapshot is settled once, by its method, with every refusal; `Purchases.dfy` says field by field what each method writes |
| BillingServices.BillingService.MarkPastDueAll | src/billing/service.ts:687-724 | the loop marks exactly the live rows it is given |
| Purchases.SubscriptionRow | src/billing/service.ts:345-411 | the bought row field by field (plan, allowance, timer, end, resets), the rows it ends, its ledger row, and the two refusals |
| Purchases.PackRow | src/billing/service.ts:462-491 | the same for a pack of tokens and hours, with its bounds |
| Purchases.ResetRow | src/billing/service.ts:498-520 | exactly an active row with a reset left starts over from now |
| Purchases.FirstUseRow | src/billing/service.ts:418-437 | exactly an active row that waits for its first use is started, for its hours from now |
| Purchases.CreditRow | src/billing/service.ts:774-805 | a positive credit under a new key raises the wallet by its tokens, with the balance after it on its row |
| Purchases.RollingSettles | src/billing/service.ts:828-837 | a paid rolling pass: the row carries the snapshot's plan, its model group when it names one, and the plan's hours or 30 days; two ledger rows, no balance moves |
| Purchases.PackSettles | src/billing/service.ts:838-860 | a paid pack with a duration: a row of the snapshot's tokens and hours, and a ledger row with the cents charged, the invoice's or else the snapshot's own |
| Purchases.CreditSettles | src/billing/service.ts:838-864 | a paid pack without one: a permanent credit, and the same cents on its ledger row |
| Purchases.MoneySettles | src/billing/service.ts:865-871 | paid money: the cents onto the balance, with the balance after it on the ledger row |
| Purchases.SettlementRefused | src/billing/service.ts:807-873 | a settlement fails exactly for the first of the listed reasons; a payment already marked settles as nothing |
| Conservation.StepBalances | src/billing/service.ts:345-873 | every operation keeps the books: the tokens held are the ledger's funded tokens plus cents-paid usage plus restored allowances, cents are granted minus spent, keys are unique, no row is overdrawn |
| Conservation.BooksBalance | src/billing/service.ts:345-873 | the same over every run of purchases, packs, first uses, resets, cancellations, credits, payments and charges |
| Conservation.FreshAccount | src/billing/service.ts:345-873 | an account with nothing on it satisfies the books, so every run from the start keeps them |
| Conservation.UsageBalances | src/billing/service.ts:587-724 | a charge moves as many tokens out of the rows and wallet as its ledger rows say, up to the part paid with cents |
| Conservation.SettleBalances | src/billing/service.ts:807-873 | a payment settlement grants exactly what it books |
| Conservation.SettlementPays | src/billing/service.ts:807-873 | a payment settled for the first time is worth exactly its terms: a rolling pass its plan's allowance, a pack its tokens whether they expire or not, anything else its cents |
| Conservation.ChargeLedger | src/billing/service.ts:587-724 | a new charge appends its debit and at most one shortfall row, and keys stay unique |
| Conservation.ChargedOnce | src/billing/service.ts:587-603 | once charged, a usage id is charged never again, whatever runs in between |
| Conservation.RunningBalance | src/billing/service.ts:740-873 | over every run the balance on the newest ledger row is the wallet's balance |
| Conservation.KeysStay | src/billing/service.ts:740-771 | no operation deletes a ledger key |
| FundingGate.RefusalFundsNothing | src/billing/service.ts:1003-1024 | when the gate refuses, a charge of any size at that instant would fund nothing |
| FundingGate.GateOpensExactly | src/billing/service.ts:1011-1024 | the gate opens exactly for a live row that waits for its first use or has tokens left in an open window, for wallet tokens, or for cents, over the rows' fields |
| FundingGate.FundsSomethingExactly | src/billing/service.ts:606-686 | a charge funds something if and only if a drawable window is open, the wallet is not empty, or there are cents and a rate plan |
| FundingGate.OveradmitsExactly | src/billing/service.ts:1011-1024 | the gate passes while the charge funds nothing if and only if only things no charge can draw on hold it open |
| FundingGate.MonetaryPackOpensGate | src/http/console.ts:1124-1125 | subscribing to a free monetary-pack plan with an allowance and no rate opens the gate for the whole period, and no charge can draw on it |
| FundingGate.AdmissionFundsSomething | src/billing/service.ts:1003-1024 | with duration-bearing rolling and pack subscriptions, nonempty pending packs and a rate plan whenever cents are held, a pass means the next charge is at least partly funded |
| FundingGate.ChargeStarts | src/billing/service.ts:613-668 | a charge starts the timer of every row it spends from, of every payable row on a shortfall, and suspends none |
| FundingGate.RunStaysOrderly | src/billing/service.ts:345-724 | over every run there is at most one live rolling pass and no pending payable timer is past due |
| FundingGate.FreshIsOrderly | src/billing/service.ts:345-411 | an account without subscriptions is a start for that |
| FundingGate.PurchaseLeaves | src/billing/service.ts:345-411 | a plan without a duration replaces every subscription, a rolling pass the rolling pass, anything else stacks; the new row has the plan's resets and pays its whole allowance until it ends, or from its first use on |
| FundingGate.ResetReopens | src/billing/service.ts:498-520 | a reset makes the whole allowance payable again, for the whole duration from now or, without a duration, in the window the row had; it uses one reset up and touches no other row |
| EarliestExpiry.DrainKeepsLatest | src/billing/service.ts:632-668 | for every horizon, what survives a drain is as much as could possibly outlive it |
| EarliestExpiry.WaterfallOutliving | src/billing/service.ts:606-668 | the same for pass, packs and wallet together after one charge |
| EarliestExpiry.SpendStep | src/billing/service.ts:606-668 | the bound no other feasible way of spending can exceed |
| EarliestExpiry.AheadAlways | src/billing/service.ts:606-668 | over every run and at every horizon the code has funded and kept at least as much as any other feasible spender |
| EarliestExpiry.EarliestExpiryIsOptimal | src/billing/service.ts:606-668 | over every run of charges and pack purchases, the recorded shortfall is at most what any other feasible allocation of the same pass, packs and wallet leaves unfunded, as long as a rolling pass expires no later than any pack |
| RollingFirst.RollingFirstCanLose | src/billing/service.ts:606-631 | why the pass must expire first: for a bought two-hour pass and one-hour pack, which the code spends in that order, another order of the same pool funds more |
| Budget.UsageTable.ReserveBudget | src/persistence/database.ts:145-164 | a reservation is made if and only if it fits under the smaller of the two limits and the id is new, and is appended reserved |
| Budget.UsageTable.SettleBudget | src/persistence/database.ts:176-214 | only the tenant's own reserved row changes, to settled with the actual units on the day it was reserved; today's total passes the limit, or what it was, by at most the reported overshoot |
| Budget.UsageTable.ReleaseBudget | src/persistence/database.ts:216-222 | only the tenant's own reserved row changes, to released with zero units, and no day of any tenant gets fuller |
| Budget.SettleUsed | src/persistence/database.ts:176-214 | settling changes a day's total only by replacing the row's own units, and no other tenant's |
| Budget.SettleExact | src/persistence/database.ts:176-214 | settling a reserved row puts the actual units in the place of the reserved ones in its day |
| Budget.OvershootIsExcess | src/persistence/database.ts:183-214 | for a row reserved today the reported overshoot is exactly what the day now has above its limit |
| Budget.DayBudgetBound | src/persistence/database.ts:145-222 | under fixed limits, after every run a day's reserved and settled units exceed the limit by at most the overshoots reported that day plus the units beyond their reservations that rows of the day were settled with on other days |
| Budget.SameDayCarriesNothing | src/persistence/database.ts:145-222 | with every settlement on its row's day the second part is zero: the reported overshoots alone bound the day |
| Budget.FinalRowsStay | src/persistence/database.ts:193-222 | settled and released rows are never changed again |
| Budget.ReservedWithinBoth | src/persistence/database.ts:145-164 | a reservation is made exactly when its id is new and the day stays within the deployment's limit and the tenant's own, and is written for today with its units |
| Budget.ReservedCounts | src/persistence/database.ts:150-155 | a reservation counts towards its tenant's day at once, and towards no other |
| Budget.ReleaseGivesBack | src/persistence/database.ts:216-222 | a release gives its day back exactly the reserved units |
| Budget.ReportIsRest | src/persistence/database.ts:183-214 | for a row of today the reported limit is the smaller of the two, `remaining` what the rest of the day leaves under it, and the overshoot what exceeds that |
| Budget.NextDaySettlementUnreported | src/persistence/database.ts:183 | why the second part is needed: settled the next day, a day grows past its limit by exactly that part with no overshoot reported |
| Reconciliation.BatchIsRun | src/billing/service.ts:941-950 | a batch is a run of charges, so every law of runs holds across it |
| Reconciliation.BatchIsOldest | src/billing/service.ts:925-936 | a selectable row is in the batch, or the batch is full and all of it comes earlier by time and id |
| Reconciliation.SkipFree | src/billing/service.ts:917-958 | one call bills exactly its batch, never moves the cursor back, and never past a row that was selectable and is still unbilled |
| Reconciliation.SelectableAfter | src/billing/service.ts:925-936 | a row is selectable afterwards if and only if it was before and the batch did not take it |
| Reconciliation.DrainsOneBatch | src/billing/service.ts:917-958 | each call shortens the backlog by one full batch or empties it, zero-unit rows included |
| Reconciliation.BacklogDrains | src/billing/service.ts:917-958 | so k calls shorten it by k batches or empty it |
| Reconciliation.MissesNothingExactly | src/billing/service.ts:917-958 | over every interleaving of metering, billing and reconciliation from a sound account with nothing missed, no settled row gets out of reach if and only if each settlement lands before the cursor passes its row |
| Reconciliation.TimelyRunsMissNothing | src/billing/service.ts:917-958 | its sufficient half needs no more than a sound account |
| Reconciliation.FreshWorld | src/billing/service.ts:917-958 | an account without usage meets all three conditions |
| Reconciliation.LateRowNeverBilled | src/billing/service.ts:925-936 | and a settled unbilled row the cursor has passed stays unbilled through every later run |
| Reconciliation.NewerRowMovesCursor | src/billing/service.ts:950-956 | a newer settled row moves the cursor past an older reservation |
| Reconciliation.LateSettlementMissed | src/persistence/database.ts:157-198 | a concrete reservation settled too late to be selected |
| Metered.BilledAsMetered | src/billing/service.ts:917-958 | over every interleaving of metering, billing and reconciliation, a usage id in the ledger names a settled row of this tenant, and its entries add up to exactly that row's units; other ids book nothing |
| Metered.ChargeBooks | src/billing/service.ts:687-709 | one charge books exactly its units under its id, funded or not |
| Metered.FreshBooks | src/billing/service.ts:917-958 | an account without usage is a start for that |
| Payments.Webhooks.Settle | src/http/console.ts:1917-1955 | the settling transaction commits as a whole or restores payments, markers and account rows |
| Payments.Webhooks.Process | src/http/console.ts:1909-1976 | duplicates, first settlements, later paid notices and late failures each take their branch |
| Payments.Webhooks.Handle | src/http/console.ts:1854-2104 | both endpoints: unknown orders, amount or currency mismatch, missing rate, unreadable snapshot, then the transaction; `Deliveries.dfy` says over the fields when each happens |
| Payments.DeliverStep | src/http/console.ts:1909-1976 | one delivery grants if and only if it settles a payment not settled before, and never unsettles one |
| Payments.GrantsAtMostOnce | src/http/console.ts:1909-2103 | over every run of deliveries and account operations a payment grants at most once, has granted exactly when it has become settled, and stays settled at the same instant |
| Payments.FreshShop | src/http/console.ts:1909-2103 | a new account and orders with payments of their own are what the run laws start from |
| Payments.OtherOrdersUntouched | src/http/console.ts:1909-1976 | a delivery touches no other order |
| Payments.LateFailureHarmless | src/http/console.ts:1957-1960 | a late failure notice changes neither payment nor account |
| Payments.FailureRollsBack | src/http/console.ts:1963-1973 | a failed settlement leaves account and markers as they were and only flags the payment |
| Payments.RetryLikeFirst | src/http/console.ts:1909-1973 | a retry after a failure does what a first attempt would, whatever the account has become |
| Payments.FirstSettlementGrants | src/billing/service.ts:807-873 | a settlement that goes through for an unmarked payment grants something, duration packs included |
| Payments.SettleMarks | src/billing/service.ts:807-873 | a settlement marks no payment but its own |
| Deliveries.GrantNeedsMoney | src/http/console.ts:1891-1932 | a delivery grants only for a known, unsettled order, on a status paid or paid_over not seen before, and a reported amount of at least the invoice's in its currency (rupiah for Leuwongrr, with an exchange rate) |
| Deliveries.UnderpaidRefused | src/http/console.ts:1892-1902 | a paid notice is refused as a mismatch if and only if it does not cover its invoice, and then nothing changes |
| Deliveries.TokensBought | src/billing/exchange-rate.ts:30-33 | rupiah buy 50 million tokens a dollar, rounded down |
| Deliveries.PaidSettles | src/http/console.ts:1933-1956 | any other new paid notice settles by the order's terms, completed from the invoice, or flags the payment with the reason; status, instant and marker are those written |
| Deliveries.UnreadableTerms | src/http/console.ts:1936-1942 | unreadable terms grant nothing: one provider's payment is flagged, the other's notice refused |
| Deliveries.OthersRecord | src/http/console.ts:1925-1962 | every other known notice leaves the account alone: repeated ones change nothing, the rest record their marker and, where the source does, their status |
| Deliveries.NotYet | src/http/console.ts:2034-2058 | a covered Leuwongrr notice waits for an exchange rate, and is refused with unreadable terms |
| RateLimit.TokenBucketLimiter.EvictIdleEntries | src/policy/rate-limit.ts:73-77 | deleting from under the iteration removes exactly the entries idle for more than the period, in order |
| RateLimit.TokenBucketLimiter.Charge | src/policy/rate-limit.ts:58-70 | a token is taken if there is one, the bucket becomes the most recent, and the hint is the rounded-up wait |
| RateLimit.TokenBucketLimiter.ConsumeExisting | src/policy/rate-limit.ts:45-51 | a known key is refilled, charged and moved to the most recent place |
| RateLimit.TokenBucketLimiter.ConsumeKey | src/policy/rate-limit.ts:40-71 | one call of the limiter, capacity refusal included |
| RateLimit.GainIsProduct | src/policy/rate-limit.ts:37-49 | refill is elapsed time times rate |
| RateLimit.SecondsIsCeiling | src/policy/rate-limit.ts:67-70 | the wait in seconds is the quotient rounded up |
| RateLimit.LevelReached | src/policy/rate-limit.ts:45-51 | a bucket gains `rpm` scaled units a millisecond up to the burst, and nothing when the clock ran back |
| RateLimit.CallOutcome | src/policy/rate-limit.ts:40-71 | a call is allowed exactly when a whole token is there, takes it, and is the last used; a refusal names at least one second |
| RateLimit.ConfiguredRefills | src/config.ts:141-143 | a burst within the rate refills within one idle period, as the refinement and the rate bound need |
| RateLimit.RunShaped | src/policy/rate-limit.ts:40-77 | under a clock that never runs backwards the map stays within its bound and sorted by last use |
| RateLimit.BoundedRefinesUnbounded | src/policy/rate-limit.ts:40-77 | every decision except a capacity refusal equals that of a limiter that never evicts, because an evicted bucket would be full again |
| RateLimit.RunShadows | src/policy/rate-limit.ts:40-77 | the invariant behind it: same buckets, and dropped ones would be full |
| RateLimit.RateInvariant | src/policy/rate-limit.ts:40-71 | tokens allowed plus tokens left never exceed the starting level plus what was refilled, across evictions |
| RateLimit.RateBound | src/policy/rate-limit.ts:40-71 | in any window a key is allowed at most burst plus window times refill rate |
| RateLimit.TokenHintIsLeast | src/policy/rate-limit.ts:66-70 | whatever other keys call within one idle period, a refused key is admitted after n whole seconds if and only if n reaches the hint |
| RateLimit.CapacityHintExact | src/policy/rate-limit.ts:54-84 | the capacity hint covers the oldest entry's remaining idle time, and the key is admitted then unless that time is a whole number of seconds, one or more |
| RateLimit.CapacityHintFallsShort | src/policy/rate-limit.ts:73-84 | a limiter filled by different keys at one instant turns a new key away for 120 seconds, and turns it away again then |
| TenantLimits.TenantRateLimiterRegistry.MakeRoom | src/policy/tenant-limits.ts:41-45 | least recently used tenants go until there is room for one |
| TenantLimits.TenantRateLimiterRegistry.ConsumeFor | src/policy/tenant-limits.ts:28-60 | one call of the registry, with a changed rate starting a new limiter, and the registry stays bounded |
| TenantLimits.OwnStep | src/policy/tenant-limits.ts:46-59 | a tenant's limiter only ever holds its own bucket, so it never lacks room and decides like an unbounded one |
| TenantLimits.OwnLimits | src/policy/tenant-limits.ts:29-54 | a tenant's rate is at least one a minute, and its burst the smaller of its rate and the ceiling |
| TenantLimits.ServedAtItsRate | src/policy/tenant-limits.ts:28-59 | a served tenant is the most recent, with a limiter of the rate it asked for |
| TenantLimits.RateChangeStartsOver | src/policy/tenant-limits.ts:32-36 | a changed rate starts with a whole burst; an unchanged one goes on from its bucket |
| TenantLimits.ServeKeeps | src/policy/tenant-limits.ts:28-60 | every call keeps the registry bounded and turns no tenant away for want of room |
| TenantLimits.RunBounded | src/policy/tenant-limits.ts:28-60 | so does every run |
| TenantLimits.RecentTenantKept | src/policy/tenant-limits.ts:38-58 | a tenant's limiter is untouched until as many other tenants as there are places have been served since |
| TenantLimits.TenantKeptExactly | src/policy/tenant-limits.ts:38-58 | a tenant still has its limiter, untouched, if and only if fewer other tenants than there are places have been served since it was |
| TenantLimits.TenantsAreIsolated | src/policy/tenant-limits.ts:3-60 | while no more tenants call than there are places, a tenant with a steady rate is answered as by an unbounded limiter of its own, whatever the others do |
| TenantLimits.CrowdingResets | src/policy/tenant-limits.ts:41-45 | at any rate: a tenant spends its burst, as many others as there are places are served, and in the same instant it is given another whole burst, of which a limiter of its own would refuse the first call |
| TenantLimits.OneEachVisitors | src/policy/tenant-limits.ts:41-45 | such a crowd exists for every number of places |
| Idempotency.IdempotencyTable.ClaimKey | src/persistence/idempotency.ts:4-15 | an expired row is dropped, a free key is taken, and a taken one answers cached, conflict or in progress |
| Idempotency.IdempotencyTable.CompleteKey | src/persistence/idempotency.ts:16 | only the open row of the same hash is completed |
| Idempotency.IdempotencyTable.AbandonKey | src/persistence/idempotency.ts:17 | only the open row of the same hash is deleted |
| Idempotency.ExpiredKeyTwoOwners | src/persistence/idempotency.ts:4-15 | why the laws are about one lifetime: after it a second owner is admitted while the first still runs |
| Permits.BoundedSemaphore.Acquire | src/policy/semaphore.ts:5-8 | a permit is given if and only if one is free, with a fresh unreleased closure |
| Permits.BoundedSemaphore.Free | src/policy/semaphore.ts:9 | only the closure's first call gives the permit back, and the count equals the unreleased closures |
| Permits.DriveBody | src/upstream.ts:24-42 | whatever order end, error and cancel arrive in, the body frees its permit exactly once, and only if one of them came |
| Permits.TenantConcurrencyRegistry.TryAcquire | src/policy/tenant-limits.ts:79-86 | a slot is refused if and only if the tenant is at its ceiling or there is no room for another tenant |
| Permits.TenantConcurrencyRegistry.Free | src/policy/tenant-limits.ts:87-94 | only the first call gives the slot back, every count equals its tenant's unreleased slots, and a tenant with none has no entry |
| Permits.CountOneMore | src/policy/tenant-limits.ts:85 | counts stay numbers of holders when a slot is taken |
| Permits.CountOneLess | src/policy/tenant-limits.ts:88-93 | and when one is given back |
| Permits.AcquiredSize | src/policy/tenant-limits.ts:82-85 | the map never outgrows its bound |
| StreamRegistries.StreamRegistry.Register | src/http/stream-lifecycle.ts:6-12 | the owner's closers gain one, no other owner's change |
| StreamRegistries.StreamRegistry.Unregister | src/http/stream-lifecycle.ts:13-17 | the first call removes its own closer, and with the last one the owner's entry; a later call changes nothing, unless its set is empty and the owner has registered again, whose new entry it then drops |
| StreamRegistries.StreamRegistry.CloseAll | src/http/stream-lifecycle.ts:21-26 | shutdown runs every registered closer of the owner, leaves none, and touches no other owner |
| Admission.RunKeeps | src/http/pipeline.ts:36-257 | under every interleaving, for however long: slot and permit counters equal unreleased closures and stay within limits, the registry holds exactly the open streams, a reservation is open exactly while its request works |
| Admission.StepKeeps | src/http/pipeline.ts:36-257 | each event keeps all of it, whenever it comes |
| Admission.ArriveKeeps | src/http/pipeline.ts:57-100 | so does an arrival on each of its exits |
| Admission.IdleGateway | src/http/pipeline.ts:36-56 | a gateway with nothing in flight satisfies both invariants, so every run from the start keeps them |
| Admission.QuietMeansReleased | src/http/pipeline.ts:134-257 | when no request works any more, no slot is held, no stream is registered and nothing is reserved, and once every streaming body has freed its permit no permit is held |
| Admission.ShutdownLeavesNone | src/http/stream-lifecycle.ts:20-26 | shutdown leaves no registered stream |
| Admission.CompletedKeyReplays | src/http/pipeline.ts:57-71 | until its row expires a completed key replays for the same hash, conflicts for another, and changes nothing, so there is no second upstream call |
| Admission.BusyKeyRefuses | src/http/pipeline.ts:57-71 | until its row expires a key in progress admits nobody else and changes nothing |
| Admission.CompletedKeyStays | src/persistence/idempotency.ts:4-17 | over every run the stored status and body stay the same until the key's row expires |
| Admission.OwnerFinishes | src/http/pipeline.ts:207-254 | an owner that ends takes its open row with it, by completing or abandoning it |
| Admission.RunKeepsKeys | src/http/pipeline.ts:57-254 | over runs of any length in which no key is claimed while its owner outlives the row: an open row has exactly one running owner, and every running owner has its open row |
| Admission.ArrivalKeepsKeysExactly | src/persistence/idempotency.ts:4-15 | an arrival keeps that law if and only if it does not claim a key whose row is open and has expired |
| Admission.StepKeepsKeys | src/http/pipeline.ts:57-254 | every other event keeps it unconditionally |
| Admission.QuietMeansAnswered | src/http/pipeline.ts:207-254 | when every request has ended, no key is left in progress |
| Outcomes.ArrivalOutcome | src/http/pipeline.ts:53-100 | every arrival is answered by what it finds (key, row, both budget limits, slots of tenant and registry) and leaves exactly what its answer says: reservation, slot, permit and open key when admitted, nothing of its own otherwise |
| Outcomes.AnswerOpens | src/http/pipeline.ts:108-140 | a stream with a good answer and a body opens and is registered, any other answer to a stream is discarded, the rest is read; without a body the permit is free |
| Outcomes.BodyFreesPermit | src/upstream.ts:33-40 | a body that closes frees its permit once, and nothing else changes |
| Outcomes.ParsedOutcome | src/http/pipeline.ts:209-248 | a readable good answer settles the request's own reservation at the reported units, or the estimate when none were reported, and stores status and body under its key; any other releases it at no units and frees the key |
| Outcomes.FailureOutcome | src/http/pipeline.ts:113-131 | a missing permit, a failing upstream and a discarded stream release the reservation at no units and free the key |
| StreamFinality.FirstEventDecides | src/http/pipeline.ts:134-203 | from the moment a stream opens in any reachable state, over every run: the first of end, error, close, idle timeout and shutdown decides it once, settled with its units or released; slot given back and registration gone exactly then |
| StreamFinality.OpeningStands | src/http/pipeline.ts:103-190 | a streaming call answered with a body opens undecided, registered, with its slot and its reservation |
| StreamFinality.StepStands | src/http/pipeline.ts:134-203 | no single event changes a decided stream or decides another |
| Pipeline.Executor.Execute | src/http/pipeline.ts:36-100 | claim, reserve, slot and permit in place take the protocol's arrival step, with every refusal's undo |
| Pipeline.Executor.Proceed | src/http/pipeline.ts:72-100 | what follows the claim, refusals undone in full |
| Pipeline.Executor.FailRequest | src/http/pipeline.ts:111-131 | the failing exits release, abandon and give back |
| Pipeline.Executor.SucceedRequest | src/http/pipeline.ts:218-248 | the successful exit takes the protocol's step, which settles, completes and gives back as `Outcomes.ParsedOutcome` says over the fields |
| Pipeline.Executor.FinalizeSuccess | src/http/pipeline.ts:149-173 | the guarded successful finaliser takes the protocol's step |
| Pipeline.Executor.FinalizeFailure | src/http/pipeline.ts:141-148 | the guarded failing finaliser takes the protocol's step |
| Pipeline.Executor.CloseActiveStreams | src/http/stream-lifecycle.ts:21-26 | closing a copy of the registry is one shutdown over exactly the registered streams |
| Pipeline.Executor.ReleaseTenantSlot | src/policy/tenant-limits.ts:87-94 | only the first release counts |
| UsageMeter.UsageMeterObject.ObservePayload | src/http/usage.ts:124-160 | one payload updates finish reason and counters in place as specified; `Readings.dfy` says from which fields |
| UsageMeter.UsageMeterObject.ObserveUsage | src/http/usage.ts:124-160 | one usage object updates the counters in place as specified, dialect by dialect |
| UsageMeter.UsageMeterObject.ObserveSseChunk | src/http/usage.ts:162-182 | one chunk: complete lines are read in order, the rest is kept, cut to the bound |
| UsageMeter.ChunkIsFeed | src/http/usage.ts:162-182 | while lines fit the buffer, a chunk is read exactly as its characters one by one |
| UsageMeter.ChunksAreFeed | src/http/usage.ts:162-182 | so is every sequence of chunks |
| UsageMeter.ChunkingInvariance | src/http/usage.ts:162-182 | if no newline-free run exceeds 65 536 characters, every way of cutting the stream gives the same meter as one call on the whole text |
| UsageMeter.BufferBounded | src/http/usage.ts:162-182 | for any input the retained text has no newline and stays within the bound |
| UsageMeter.CountersMean | src/http/usage.ts:124-160 | the counters are the maximum (Anthropic) or the last (OpenAI) of the counts reported |
| UsageMeter.AnthropicOrderFree | src/http/usage.ts:184-190 | Anthropic units do not depend on the order of the events |
| UsageMeter.LinesArePayloads | src/http/usage.ts:171-181 | reading lines is observing the payloads of the readable ones in order |
| UsageMeter.StreamUnits | src/http/usage.ts:162-190 | over any chunking the reported units are those of the stream's payloads |
| Readings.UsageFound | src/http/usage.ts:57-69 | the counts of a payload are those of its `usage` object, or else of `message.usage`, or none |
| Readings.AnthropicCounts | src/http/usage.ts:140-146 | a payload raises input and output to what it says, if that is larger |
| Readings.AnthropicStreamUnits | src/http/usage.ts:140-190 | the units of a message start and the events after it are the input it names and the largest output any of them does |
| Readings.OpenAiUnits | src/http/usage.ts:148-158 | OpenAI units are what the last payload with a count is worth: its total, or else prompt and completion together |
| Readings.DetailsRead | src/http/usage.ts:131-158 | cache reads, reasoning, prompt and completion come from the named fields, the last one said |
| Readings.LastReason | src/http/usage.ts:77-106 | the finish reason is the one the last payload that gives any gives, from its choice, delta, message or status in that order |
| Readings.DataLine | src/http/usage.ts:171-178 | a data line carries what stands behind `data:`, blanks aside, unless that is the end mark or too long |
| Readings.OtherLine | src/http/usage.ts:171-175 | a line that does not begin with it, or says nothing, carries nothing |
| UsageMeter.LongLineCutMatters | src/http/usage.ts:162-182 | why the bound is needed: beyond it two cuts of one text report different units |
| Markdown.TakeRun | web/src/chat/markdown.tsx:256-358 | each inner loop stops at the first line that does not belong to its block |
| Markdown.TakePiece | web/src/chat/markdown.tsx:256-358 | each turn of the outer loop takes exactly one piece of the grammar and advances |
| Markdown.ParseBlocks | web/src/chat/markdown.tsx:256-358 | the parser terminates on every text and classifiers, and its blocks are those of a reading that tiles all lines in order |
| Markdown.PieceUnique | web/src/chat/markdown.tsx:256-358 | at most one piece of the grammar can start on a line |
| Markdown.ReadingUnique | web/src/chat/markdown.tsx:256-358 | a text has at most one reading, so the parser's is the reading |
| Markdown.ListShows | web/src/chat/markdown.tsx:309-322 | each item is what the matching classifier returns for its line, and the list ends at the first line it refuses |
| Markdown.TableShows | web/src/chat/markdown.tsx:324-334 | a header with a bar over a separator, then the cells of every line with a bar that is not blank |
| Markdown.QuoteShows | web/src/chat/markdown.tsx:299-307 | every line of a quote is marked as one and shown without the mark |
| Markdown.ParagraphShows | web/src/chat/markdown.tsx:336-354 | trimmed lines of which none begins another block, up to one that does |
| Markdown.CodeShows | web/src/chat/markdown.tsx:267-279 | the lines as they are up to a closing fence, which is taken too, or the end |
| Markdown.LineShows | web/src/chat/markdown.tsx:281-297 | the one-line blocks, and which kinds come before which |
| Backfill.Database.CheckPlans | src/persistence/migrations.ts:406-430 | the validation loops pass if and only if every plan is readable, known, nonempty when active and, with several models, complete; a failure names what is wrong |
| Backfill.Database.CheckPolicies | src/persistence/migrations.ts:431-441 | the policy loop passes if and only if every policy is known and unambiguous; a failure names what is wrong |
| Backfill.Database.RunBackfill | src/persistence/migrations.ts:406-461 | it succeeds if and only if all validations pass; on failure no row has been written and the failure is true of the tables |
| Backfill.ValidatedExactly | src/persistence/migrations.ts:406-441 | it passes exactly when every plan lists known models (some when active, all of several), no policy names an unknown model, and none is enabled in a catalogue of several |
| Backfill.BackfillWrites | src/persistence/migrations.ts:442-461 | ungrouped models and plans move to the legacy group, an empty catalogue gets its one model, policies stay |
| Backfill.ActivePlansListAll | src/persistence/migrations.ts:415-430 | a list of the catalogue's size within the catalogue is the whole catalogue |
| Backfill.EntitlementPreservedExactly | src/persistence/migrations.ts:406-461 | an active ungrouped plan's new group has exactly the models it listed, if and only if no model was already in another group |
| Backfill.MigrationPreservesEntitlement | src/persistence/migrations.ts:406-461 | run on the columns the migration has just added, the backfill preserves every active plan's entitlement |

## Left out

- EarliestExpiry.EarliestExpiryIsOptimal: about running timers and the token wallet, without cents, and with a rolling pass only if it expires no later than any pack (a counterexample is given otherwise).
- Conservation.BooksBalance: direct credits carry the sources the service itself uses (payment, admin, pay-as-you-go); nothing else writes usage or subscription rows to the ledger.
- Budget.DayBudgetBound: limits do not change during the run.
- Admission.RunKeepsKeys: assumes that a running owner of a claimed key is still within the 24 hours of its row (the request timeout of `src/config.ts:38` is at most five minutes); `ArrivalKeepsKeysExactly` and `ExpiredKeyTwoOwners` show what happens otherwise.
- Payments.GrantsAtMostOnce: the orders exist from the start of the run, and only the webhooks settle payments.
- RateLimit.BoundedRefinesUnbounded: assumes a clock that never runs backwards.
- TenantLimits.TenantRateLimiterRegistry.ConsumeFor: the limiters it holds are values (their objects are in `RateLimit.dfy`), and `ratePerMinute` is a whole number.
- Pipeline.Executor.Execute: the request's release closures are flags in its record; the closure objects themselves are in `Permits.dfy` and `StreamRegistry.dfy`.
- One account and one model of its rows: no isolation between accounts, `account_not_found`, tenant limits or model policies written by `applyPlanLimits`.
- Rows created at the same instant are ordered by creation.
- Floating point: the price conversions are modelled with the relative error of double arithmetic, without overflow or underflow; refill and the exchange rate of a payment are exact; amounts and counts are whole numbers.
- Plan upsert rules, display pricing, summaries, projections, the ledger listing and recent usage: single-row lookups.
- Audit rows and the usage-detail columns written beside a settlement (among them the finish reason, cut to 32 characters).
- SQL text, WAL, pragmas, retention deletion and the other migrations; a retention run during a proof window is excluded.
- HTTP parsing, sessions, signatures and provider APIs: a delivery is modelled from the point where its signature and fields are accepted.
- JSON parsing of event data is a parameter, and so are the regular expressions of the block parser; inline rendering is not modelled.
- Chunks are strings: a UTF-8 character cut between two chunks is not modelled.
- Arming and clearing the idle timer on data: only the timer's firing is an event.
- The rejected target outside the upstream base, and exceptions thrown by the database inside a finaliser.
- The JSON of plan memberships in the backfill is parsed input, and the default model's other columns are not modelled.
