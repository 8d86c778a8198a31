# A verified model of the Compound lending ledger

This project models a Compound-style lending ledger that runs as a deterministic, replayable state
machine over Mixin UTXOs, and proves what its design relies on: that crashes and retries are
invisible, that money and cTokens are conserved, that debts cover the books, that accepted outputs
leave accounts healthy, that liquidations help, that the wallet pays each transfer from its own
outputs and in order, that the batched drain sorts, that votes count once, and that the memo codec
reads back what it writes. `dafny verify dfyconfig.toml` checks everything.

## How it is built

Amounts are exact reals. `Decimal` gives the roundings of shopspring/decimal explicitly: `Trunc16`
and `Trunc8` toward zero, `Ceil16` upward, `Div` to the nearest 16th digit, halves away from zero;
`Mul` is exact.

`Core` holds the rows (markets, supplies, borrows, transactions, transfers) and the single store
writes: first-or-create by trace or key, and updates guarded by a version. `Handlers` says, for each
of the twelve actions, what it decides and which writes it makes in which order, as a function of
the database it reads (`Slots`). `Payee` is the worker itself: a class whose methods read the stores,
decide, and write one row after another while a fuse may stop the process before any write; each
method is proved to follow its plan, and the loop saves a checkpoint after each output.

`Outcomes`, `Deposits`, `Loans` and `Seizures` say, action by action, what a handled output leaves behind:
the whole database after it, with the conditions of acceptance, the rows, the payments and the refund
written out, and prove that the plans lead there. `Interest` holds the laws of accrual, of the rate curve
and of liquidation terms, from both sides.

`Replay` and `Crash` prove that re-planning after any prefix of the writes completes exactly the
interrupted plan, so that runs with crashes equal one uninterrupted run. `Refunds`, `Books`, `Ledger`,
`Flows`, `Conservation`, `Recipients`, `Debts`, `Health`, `Margins`, `RoundTrip` and `Accrual` prove the properties
of the ledger over every run; `LostRepayment` and `FirstGain` hold the inputs at which two of them fail.
`Assigner`, `Pipeline` and `Progress` are the coin selector and the transfer pipeline under every
interleaving of their workers, `Drain` and `Arrivals` the raw output drain, `Voting` and `Effects` the
proposals and what becomes of their effects, and `Codec` the length-prefixed encoding.

Some properties hold only under a condition, and the project states both sides:

- Debt covers the book in every run up to rounding and up to what liquidations inside one market lose.
  In such a liquidation the second market update carries the version read at the start, fails its
  optimistic lock, and the retry skips the output: the account is credited with the repayment, the
  market is not. `Debts.DebtCoversTheBook` accounts for exactly these repayments,
  `Debts.TightBookIsUncovered` says when the bound without them breaks, and
  `LostRepayment.LiquidationUncoversTheBook` gives inputs.
- A round trip of supply and redeem, both accepted, pays exactly `RoundTrip.Payout`, and gains exactly
  if the cTokens are worth at least one unit of the 8-digit grid more than the deposit
  (`RoundTrip.RoundTripPays`). That is excluded in a market with cTokens while rate + 2c < 2 * 10^8, and
  in a market without cTokens that holds less than a unit. A market without cTokens that holds more
  gives it to the first depositor whose redemption is accepted. Such a surplus is reachable: from a new
  market, one deposit of 10^10 at a rate of six and its redemption leave four units of the grid behind,
  and the next deposit of one takes three of them (`FirstGain.GainIsReachable`). A redemption is accepted
  only for less than the cash above the reserves, so it never pays the whole surplus.
- The batched drain keeps the order exactly when no timestamp is shared by more rows than a page
  holds (`Drain.DrainInOrder`, `Drain.OversizedGroupBreaksOrder`). With arrivals, it keeps the order
  exactly if, whenever the bound moves, no row becomes eligible that belongs before one already drained
  (`Arrivals.InOrderExactlyIfOnTime`). That can fail: the syncer pages by the time of the last update
  (worker/syncer/syncer.go:63-70) while the drain sorts by the time of creation, so an output that was
  created earlier and updated later can arrive after its successor has been drained
  (`Arrivals.ALateRowBreaksOrder`).
- A passed proposal whose output has gone through has had its effect, unless it raises the system
  version and the attempt that passed it died before the effect while the stored version was already as
  new (`Effects.EffectsAreLostExactlyIfDoomed`). Validation compares the proposed version with the one
  loaded at the start of the pass (worker/payee/sysversion.go:25-39), so this takes a pass that has
  raised the version itself (`Effects.DoomedOnlyAfterAnUpgrade`). Two proposals, for version 5 and then
  version 4, are enough: without a crash both take effect and version 4 is stored last; if the worker
  dies between the second passing vote and its effect, the next pass loads version 5, refuses the second
  proposal and moves on (`Effects.ACrashDecidesTheVersion`). So crashes are not invisible here.
- Next in line for its asset, a transfer is tried in a pass exactly if fewer than a hundred pending
  transfers come before it (`Progress.TriedExactlyIfWithinBatch`). Their number never grows
  (`Progress.WaitingShrinks`), so progress asks for it once, at the start.

What the source relies on and does not test is written in `Ledger.Legal`, per action: the amounts of
outputs, unpledges, quick redeems and withdrawals are positive, new prices are positive, the exchange
rate an accepted redemption uses is positive, and an accepted liquidation finds a positive discounted
price and an exchange rate of at least 10^-8. `Rates.ParamsOk` contains the ranges governance enforces.

## Model

| member | source | states |
|---|---|---|
| Rates.AccrueInterest | worker/payee/utils_market.go:15-49 | the in-place accrual computes the market that the laws of interest below speak of, and the utilization, supply and borrow rates it shows |
| Interest.InterestReachesTheMarket | worker/payee/utils_market.go:25-36 | accrual raises borrows by rate times blocks times borrows, reserves by the reserve factor times that rise, and the index by rate times blocks times the index, each from both sides up to one unit of the 16-digit grid, and changes nothing else but the block and the quote |
| Interest.SuppliersGetTheirShare | worker/payee/utils_market.go:25-36 | net assets grow by the suppliers' share of the interest, up to one unit either way |
| Interest.QuoteIsNetAssetsPerToken | pkg/compound/interestrate.go:38-45 | after accrual the exchange rate is net assets per cToken to the nearest unit, or the initial rate without cTokens |
| Interest.UtilizationIsTheLentShare | pkg/compound/interestrate.go:26-35 | utilization is borrows over net assets to the nearest unit, and zero without net assets |
| Interest.RateOfABlock | pkg/compound/interestrate.go:47-80 | the rate of a block is the yearly jump-rate curve over 2102400 blocks, from both sides up to rounding |
| Rates.SuppliersEarnNoMoreThanBorrowersPay | pkg/compound/interestrate.go:47-64 | the shown supply rate on all net assets is the suppliers' share of the borrow rate on what is lent, from both sides but for rounding |
| Rates.BorrowRateMonotone | pkg/compound/interestrate.go:47-56 | the borrow rate is non-negative and never falls as utilization rises, across the kink |
| Rates.GrowBounds | worker/payee/utils_market.go:25-36 | what is charged is bounded on both sides to one unit, and all of it stays on the 16-digit grid |
| Rates.ElapseOk | worker/payee/utils_market.go:25-36 | letting time pass keeps a market well formed and its reserves covered by cash and the reserve share of borrows |
| Accrual.AccruingMoreOftenNeverLowersTheIndex | pkg/compound/interestrate.go:28-56 | accruing at any schedule of blocks and then once more gives an index at least that of one accrual, while cash covers reserves up to the accrual before the schedule's last |
| Accrual.AccruingTwiceNeverLowersTheIndex | worker/payee/utils_market.go:25-36 | accruing at t1 then t2 gives an index at least that of accruing once at t2, if cash covers reserves at the start |
| Books.BalanceBounds | pkg/compound/borrow.go:12-26 | a rebased debt is non-negative, on the grid, and within half a unit of principal times index over the old index |
| Books.ReturnedOk | worker/payee/borrow_repay.go:104-109 | a repayment keeps the market well formed, the clamp at zero included, and no truncation loses anything |
| Account.CalculateAccountLiquidity | service/account/account_service.go:36-91 | adding up rows one by one gives collateral value less debt value, whatever the order, and fails exactly if a row's market is missing |
| Liquidation.ComputeTerms | worker/payee/liquidation.go:104-128 | the reassignments of value and amount compute the least of the three caps and the terms it implies |
| Liquidation.LiquidationBounded | worker/payee/liquidation.go:104-128 | repaid is at most paid and at most owed; seized is at most pledged for an exchange rate of at least 10^-8; both on their grids and not negative |
| Interest.TermsMeetTheLeastCap | worker/payee/liquidation.go:104-128 | the value repaid is the least of payment, close-factor limit and debt, and the cTokens seized are worth it at the discounted price, each from both sides up to rounding |
| Interest.DiscountedPrice | worker/payee/liquidation.go:104-105 | the price collateral is seized at is its price less the incentive, rounded down |
| Liquidation.LiquidationHelps | worker/payee/liquidation.go:104-128 | if the collateral factor leaves room for the discount, the value repaid makes up for the collateral value seized up to an explicit slack, whichever cap applies |
| Replay.SlotsResume | worker/payee/payee.go:142-211 | after any single write of an output's plan, planning again from the database gives what is left of the plan |
| Crash.ReplayCompletes | worker/payee/payee.go:105-140 | from any prefix of its writes, handling an output again leaves exactly the database of one uninterrupted handling |
| Crash.RerunIsPrefix | worker/payee/payee.go:105-140 | an interrupted second attempt ends on a prefix of the first plan |
| Crash.CrashesAreInvisible | worker/payee/payee.go:105-140 | over a whole queue and any number of crashes anywhere, the remaining queue leads to the database of one uninterrupted run |
| Crash.ReachableStates | worker/payee/payee.go:105-140 | every state of a crashing worker is an uninterrupted run of some outputs and a prefix of the writes of the next |
| Payee.Payee.CreateTransfer | store/wallet/wallet.go:206-220 | first-or-create by trace: the next planned transfer is in the table, or nothing changed |
| Payee.Payee.UpdateMarket | store/market/market.go:110-127 | a versioned update makes the next planned write, or fails on a version that has moved, and touches no other market |
| Payee.Payee.GetOrCreateSupply | worker/payee/require.go:69-89 | the row exists afterwards and is the stored one, created empty if it was missing |
| Payee.Payee.GetOrCreateBorrow | worker/payee/require.go:115-136 | the row exists afterwards and is the stored one, created empty if it was missing |
| Payee.Payee.HandleSupply | worker/payee/supply.go:12-85 | follows the deposit plan write by write, or refuses having written nothing |
| Payee.Payee.HandleRedeem | worker/payee/supply_redeem.go:12-88 | follows the redemption plan write by write, or refuses having written nothing |
| Payee.Payee.HandlePledge | worker/payee/supply_pledge.go:12-106 | follows the pledge plan, or refuses having created at most an empty row |
| Payee.Payee.HandleUnpledge | worker/payee/supply_unpledge.go:16-149 | follows the unpledge plan, or refuses having written nothing |
| Payee.Payee.HandleBorrow | worker/payee/borrow.go:16-148 | follows the loan plan, or refuses having created at most an empty row |
| Payee.Payee.HandleRepay | worker/payee/borrow_repay.go:14-121 | follows the repayment plan with the recorded amount, the truncated refund and the clamp |
| Payee.Payee.HandleQuickPledge | worker/payee/quick_pledge.go:12-106 | follows the quick pledge plan, or refuses having created at most an empty row |
| Payee.Payee.HandleQuickBorrow | worker/payee/quick_borrow.go:17-269 | follows the quick borrow plan over its two markets, or refuses having created at most empty rows |
| Payee.Payee.HandleQuickRedeem | worker/payee/quick_redeem.go:15-153 | follows the quick redeem plan, or refuses by either refund path having written nothing |
| Payee.Payee.HandleLiquidate | worker/payee/liquidation.go:15-253 | follows the liquidation plan with the recorded terms, or refuses having written nothing |
| Payee.Payee.HandlePrice | worker/payee/price.go:15-100 | follows the price plan, skipping prices older than the stored one |
| Payee.Payee.HandleWithdraw | worker/payee/proposal_withdraw.go:14-62 | follows the reserve withdrawal plan, or skips it if the reserves are short |
| Payee.Payee.HandleOutput | worker/payee/payee.go:142-211 | makes a prefix of the writes the output calls for in the database it found, all of them if it reports success, the refund of a refused output included |
| Payee.Payee.Run | worker/payee/payee.go:105-140 | one life of the process leaves an uninterrupted run of the outputs it checkpointed and a prefix of the writes of the next |
| Payee.LivesAreInvisible | worker/payee/payee.go:105-140 | any number of lives of the process, ending anywhere, lead to the stores of one uninterrupted run once the queue is worked off |
| Refunds.AppliedOrRefunded | worker/payee/payee.go:142-211 | over all crashes and retries, an output has at most one refund by either path, and none beside a transaction row |
| Outcomes.LiveIsCharged | worker/payee/supply.go:30-31 | the market an output deals with is the stored one with the interest up to its block |
| Deposits.SupplyOutcome | worker/payee/supply.go:12-85 | the whole database after a deposit: refunded if the market is closed or nothing is minted, else cash and cTokens up and the truncated quotient paid to the depositor |
| Deposits.RedeemOutcome | worker/payee/supply_redeem.go:12-88 | the whole database after a redemption: accepted exactly if the market has issued the cTokens and its cash above the reserves exceeds their worth, then burned and paid their truncated worth |
| Deposits.QuickPledgeOutcome | worker/payee/quick_pledge.go:12-106 | the whole database after a quick pledge: minted and locked up to the pledge limit, refunded in full by the stated reason otherwise |
| Deposits.QuickRedeemOutcome | worker/payee/quick_redeem.go:15-153 | the whole database after a quick redeem: each test and its refund path, and the amount paid |
| Loans.PledgeOutcome | worker/payee/supply_pledge.go:12-106 | the whole database after a pledge, with the pledge limit and the refunds |
| Loans.UnpledgeOutcome | worker/payee/supply_unpledge.go:16-149 | the whole database after collateral is asked back: given if pledged and if the account's liquidity can spare its worth, else refunded or passed over |
| Loans.LoanOutcome | worker/payee/borrow.go:16-148 | the whole database after a loan: accepted exactly up to the cash above reserves and borrow cap and up to the liquidity, and then owed and paid to the borrower in full |
| Loans.RepaymentOutcome | worker/payee/borrow_repay.go:14-121 | the whole database after a repayment: the debt and the borrows fall by the lesser of payment and debt, cash rises by it, and the truncated rest is refunded exactly if it is at least a unit of the 8-digit grid |
| Loans.RepaymentHelpsThePayer | worker/payee/borrow_repay.go:44-117 | the payer's stored liquidity rises by the value repaid, exactly unless total borrows are clamped, and then by at least that |
| Seizures.LiquidatedExactlyIfUnderwater | worker/payee/liquidation.go:62-103 | a liquidation is accepted if and only if the account has both rows, none in a closed market, and liquidity below zero; otherwise nothing changes but a full refund, or nothing at all |
| Seizures.LiquidateOutcome | worker/payee/liquidation.go:15-253 | the whole database after a liquidation, reason by reason, with the rows, payments and markets an accepted one leaves |
| Seizures.QuickLoanOutcome | worker/payee/quick_borrow.go:17-269 | the whole database after a quick borrow, over its two markets, test by test |
| Seizures.WithdrawalOutcome | worker/payee/proposal_withdraw.go:14-62 | the whole database after a withdrawal: cash and reserves fall by the amount paid to the opponent, or it is passed over |
| Seizures.OthersArePassedOver | worker/payee/payee.go:142-211 | an output whose assets are not listed, or without a readable action, changes nothing; one with an unknown action is refunded in full |
| Ledger.SlotsGood | worker/payee/quick_borrow.go:208-265 | every handler writes only well-formed rows: non-negative collateral and debt on their grids, markets within the reserve bound |
| Conservation.EveryStateIsWellFormed | core/market.go:104-126 | the ledger is well formed after any prefix of the outputs and any prefix of the writes of the next |
| Conservation.ReservesStayCovered | core/market.go:104-126 | in every state a crashing worker can be found in, reserves are at most cash plus the reserve share of borrows, so net assets are at least the suppliers' share of borrows |
| Conservation.CTokensConserved | worker/payee/quick_borrow.go:208-253 | over every run, a market's cTokens are those pledged plus those sent out less those received back, plus those the wallet was given and kept |
| Conservation.CashConserved | worker/payee/borrow_repay.go:78-117 | over every run, a market's cash changes by exactly what was received less what was ordered out, withdrawals and refunds included, less what the wallet keeps: deposits nothing banks or refunds, untruncatable rests, and repayments lost inside one market |
| Conservation.CashBacked | worker/payee/borrow_repay.go:78-117 | hence cash grows by at most what was received less what was ordered out |
| Recipients.PaymentsReachTheirRecipients | worker/payee/payee.go:196-235 | over every run, a new transfer is named after one of the outputs and addressed to its sender, or to the opponent of the withdrawal it carries out, and an existing one never changes |
| Recipients.LiquidationSplitsThePayment | worker/payee/liquidation.go:170-223 | what a liquidation repays and what it refunds add up to what was paid, and neither the collateral nor the principal it leaves is negative |
| Recipients.PriceTakesEffect | worker/payee/price.go:39-99 | a price update sets price and time unless a newer price is stored, charges the interest due, and leaves other markets and all accounts alone |
| Debts.DebtCoversTheBook | worker/payee/utils_market.go:25-36 | over every run, the sum of principal over index is at least total borrows over the borrow index, less half a unit per debt row written, and less the repayments of accepted liquidations inside the market |
| Debts.DebtCoversTheBookButRounding | worker/payee/utils_market.go:25-36 | without an accepted liquidation inside the market, half a unit per debt row written is all that can be missing |
| Debts.SelfLiquidationLosesTheRepayment | worker/payee/liquidation.go:225-250 | a liquidation inside one market lowers the account's debt by the repayment while the market keeps its borrows and cash |
| Debts.TightBookIsUncovered | worker/payee/liquidation.go:225-250 | from a state whose debts exceed the book by less than the repayment and rounding, they no longer cover it after a liquidation inside the market |
| LostRepayment.LiquidationUncoversTheBook | worker/payee/liquidation.go:83-250 | a ledger, for every unit of account, in which an accepted liquidation takes debts that cover the book of 10 exactly down to 5.5 |
| Health.BorrowKeepsAccountHealthy | worker/payee/borrow.go:70-84 | after an accepted loan the stored account's liquidity is exactly the checked liquidity less the value of the loan, and not negative |
| Health.UnpledgeKeepsAccountHealthy | worker/payee/supply_unpledge.go:80-94 | after an accepted unpledge the stored account's liquidity is exactly the checked liquidity less the value taken, and not negative |
| Health.QuickRedeemKeepsAccountHealthy | worker/payee/quick_redeem.go:83-94 | after an accepted quick redeem the stored account's liquidity is exactly the checked liquidity less the value taken, and not negative |
| Health.TokenQuickBorrowKeepsAccountHealthy | worker/payee/quick_borrow.go:109-134 | after an accepted cToken quick borrow the stored account's liquidity is exactly the checked liquidity plus the credit less the loan, and not negative |
| Margins.QuickBorrowKeepsAccountHealthy | worker/payee/quick_borrow.go:109-134 | after an accepted underlying quick borrow the stored account's liquidity is at least the checked one plus credit less loan, less an explicit slack for cToken truncation and exchange-rate rounding |
| Margins.LiquidationHelpsTheAccount | worker/payee/liquidation.go:83-250 | if the collateral factor leaves room for the discount, the seized account's stored liquidity after a liquidation is at least the one it was judged by, less an explicit slack |
| RoundTrip.RoundTripPays | worker/payee/supply.go:33-81 | supplying and redeeming the minted cTokens in the same block, both accepted, pays the truncated product of the rounded rate and the cTokens to the redeemer, and more than the deposit exactly if that product is at least a unit of the 8-digit grid above it |
| RoundTrip.NoGainFromARoundTrip | worker/payee/supply.go:33-81 | the round trip pays at most the deposit if the market had cTokens and rate + 2c < 2 * 10^8, or had none and held less than a unit of the 8-digit grid |
| RoundTrip.FirstDepositTakesTheSurplus | worker/payee/supply_redeem.go:39-84 | in a market without cTokens an accepted round trip pays the deposit and all the market holds, but for rounding and always less than that, and gains exactly if the rounded share is at least a unit above the deposit |
| FirstGain.GainIsReachable | worker/payee/supply_redeem.go:39-84 | from a ledger with one new market there is a legal run of two round trips, all four outputs accepted, whose second one pays more than it took in |
| Assigner.SelectOutputs | worker/assigner/assigner.go:91-114 | the selection loop takes the outputs of the two rules below and their exact sum |
| Pipeline.SpendsOldPagesWhole | worker/assigner/assigner.go:98-107 | if an asset has 32 unspent outputs or more and the first 32 have ids at most the transfer's version, exactly those 32 are selected |
| Pipeline.SpendsShortestCover | worker/assigner/assigner.go:97-114 | in every other case the selection is the shortest prefix of the first 32 unspent outputs that covers the amount, or all of them if none does |
| Assigner.Worker.HandleTransfer | worker/assigner/assigner.go:81-143 | one attempt assigns the transfer, creates an assigned merge of a full page, or changes nothing |
| Assigner.Worker.Run | worker/assigner/assigner.go:55-79 | a pass tries the first pending transfers in id order and skips assets that failed |
| Assigner.SpentAdds | store/wallet/wallet.go:260-286 | the outputs committed to a fresh trace add up to exactly what was selected |
| Pipeline.AssignerIsSafe | worker/assigner/assigner.go:55-143 | under every interleaving, assigned transfers have outputs of at least their amount and merges of exactly their amount, every spent output belongs to one assigned transfer of its asset, and the transfers of an asset are assigned as a prefix in id order |
| Pipeline.AssignmentsAreFinal | store/wallet/wallet.go:222-286 | nothing that happens later changes the transfer of a spent output or takes a transfer back a stage |
| Pipeline.NeverDuplicate | worker/assigner/assigner.go:116-135 | the trace of a merge never collides with an existing transfer |
| Pipeline.AloneGetsAssigned | worker/assigner/assigner.go:84-142 | tried alone, with each merge coming back before the next try, a transfer the balance covers is assigned after finitely many merges, each leaving 31 outputs fewer |
| Progress.MergesAreBounded | worker/assigner/assigner.go:116-135 | under every interleaving, 32 times the merges of an asset are at most the outputs it had unspent and received |
| Progress.TransfersGetAssigned | worker/assigner/assigner.go:55-143 | under every interleaving, the first transfer of its asset that is not assigned, if at the start it is among the first hundred pending and the unspent outputs cover it, gets assigned within a number of passes bounded by its unspent and received outputs, as long as the value merged is received again before the next pass |
| Progress.ListedExactlyIfWithinBatch | worker/assigner/assigner.go:56-61 | a pending transfer is on the list exactly if fewer than a hundred pending ones have smaller ids |
| Progress.TriedExactlyIfWithinBatch | worker/assigner/assigner.go:55-72 | a whole pass, whatever happens in between, makes an attempt at a transfer that is next in line for its asset exactly if fewer than a hundred pending ones come before it |
| Progress.WaitingShrinks | worker/assigner/assigner.go:56-61 | the number of pending transfers before a given one never grows |
| Progress.BalanceChanges | worker/assigner/assigner.go:84-142 | while a transfer is next in line and not assigned, the unspent balance of its asset changes by exactly what is received less what is merged |
| Progress.PassIsARun | worker/assigner/assigner.go:63-72 | a pass of the sequential worker is a run of its steps in the system of all workers |
| Drain.CmpIsTransitive | internal/mixinet/utxo.go:11-29 | the UTXO comparison is transitive |
| Drain.CmpIsTotal | internal/mixinet/utxo.go:11-29 | the UTXO comparison is antisymmetric and equates only the same time, hash and index |
| Drain.CmpIsByTimeHashIndex | internal/mixinet/utxo.go:11-29 | one UTXO comes first exactly if it is older, or of the same time and lexicographically smaller hash, or of the same transaction and smaller index |
| Drain.OneOrder | internal/mixinet/utxo.go:32-37 | distinct UTXOs have one sorted order, however they are sorted |
| Drain.TrimSuffix | store/wallet/recovery.go:155-174 | the index loop computes the page without its last timestamp group |
| Drain.TrimmedIsClean | store/wallet/recovery.go:155-174 | what is kept is not empty, and is the whole page of one timestamp or only rows older than all it cut off |
| Drain.WalletStore.SyncRawOutputs | store/wallet/recovery.go:111-153 | one sync appends the sorted rows it takes and deletes exactly those rows |
| Drain.DrainInOrder | store/wallet/recovery.go:111-153 | if no timestamp group exceeds a page, the outputs appended are in order, each once, and ahead of all that waits, whatever pages the database answers with |
| Arrivals.DrainWithArrivals | store/wallet/wallet.go:107-139 | the same while rows arrive and the bound moves, if no row becomes eligible that belongs before one already drained |
| Arrivals.InOrderExactlyIfOnTime | store/wallet/wallet.go:107-139 | once all rows below the bound are drained, the outputs appended are in order if and only if, at each move of the bound, nothing became eligible that belongs before a drained row |
| Arrivals.ALateRowBreaksOrder | worker/syncer/syncer.go:63-83 | for any two outputs of which the one created earlier arrives after the other was drained, the run from empty tables that leaves them out of order |
| Drain.DrainTerminates | store/wallet/recovery.go:111-153 | as many syncs as rows leave nothing behind |
| Drain.BatchedDrainIsOneSort | store/wallet/recovery.go:111-174 | the finished drain has appended exactly the one global sort of all the rows |
| Drain.OversizedGroupBreaksOrder | store/wallet/recovery.go:155-174 | if some timestamp group exceeds a page, there are answers after which a row still waits behind a greater one |
| Voting.Payee.HandleVoteProposal | worker/payee/proposal_v2.go:51-106 | one attempt at a vote counts a new member's vote, passes at the threshold, and invokes the effect only for the passing output |
| Voting.Payee.HandleMakeProposal | worker/payee/proposal_v2.go:17-49 | a proposal is created once, with no votes and the version of its output |
| Voting.VotingIsSound | worker/payee/proposal_v2.go:51-106 | in every run with retries, votes are distinct members, a proposal has passed exactly if the threshold is met and not exceeded, and effects belong to the passing output |
| Voting.VoteOutcome | worker/payee/proposal_v2.go:60-99 | a vote is added exactly if it is a member's first on an open proposal that the loaded version accepts, and passes it at the threshold; any other leaves all proposals as they are |
| Voting.OneOutputPerEffect | worker/payee/proposal_v2.go:101-103 | the effect of a proposal is never invoked for two outputs |
| Voting.VotesFreeze | worker/payee/proposal_v2.go:75-99 | once passed, a proposal never changes again |
| Voting.Payee.ValidateProposal | worker/payee/sysversion.go:25-39 | a proposal to raise the version is refused if it is not newer than the loaded version, and stuck if the program does not support it; others depend on their content alone |
| Effects.EffectsAreSettled | worker/payee/proposal_v2.go:71-103 | after every run with retries, the effect of a passed proposal has been invoked for the output that passed it, or that output is still to be tried again and will be found valid, or the proposal is doomed and has no effect |
| Effects.EffectsAreLostExactlyIfDoomed | worker/payee/proposal_v2.go:71-103 | once the last attempt went through, the effect of a passed proposal has been invoked if and only if it is not doomed, and that of every kind of proposal but a new version always has |
| Effects.DoomedOnlyAfterAnUpgrade | worker/payee/payee.go:105-137 | the attempt that passed a doomed proposal was in a pass that had stored a version as new since it loaded one |
| Effects.ACrashDecidesTheVersion | worker/payee/sysversion.go:25-39 | two runs of the same four outputs, one with a crash, both passing the proposal for version 4: one invokes it and stores version 4, the other loses it and keeps version 5 |
| Voting.PassesWhenThresholdIsFirstMet | worker/payee/proposal_v2.go:75-99 | in every run a passed proposal was passed by one attempt: before it the votes never met the threshold, from it on they do and the proposal no longer changes |
| Codec.Encode | pkg/mtg/encode.go:11-35 | the buffer loop computes the encoding, or fails on the first field that does not fit |
| Codec.Scan | pkg/mtg/scan.go:13-38 | the reader loop fills the destinations as the specification does, also when it fails half way |
| Codec.VarintForm | pkg/mtg/encode.go:45-52 | the bytes of a varint: groups of seven bits, least significant first, the high bit set on all but the last, none wasted |
| Codec.UvarintReadsBack | pkg/mtg/encode.go:45-52 | a 64-bit number written as a varint reads back and takes at most ten bytes |
| Codec.ValueRoundTrip | pkg/mtg/scan.go:40-76 | every value of every width reads back from its own bytes, the bare zero decimal as an explicit zero, and only empty text has none |
| Codec.EncodesWhenShort | pkg/mtg/encode.go:14-32 | encoding succeeds exactly if every field is supported and at most 255 bytes |
| Codec.RecordForm | pkg/mtg/encode.go:11-57 | the bytes of a record: a length byte and the field after it, signed numbers with the sign in the lowest bit, text, identifiers and decimals as they are |
| Codec.RequestForm | core/proposal/market.go:31-62 | the fields of a market request and their order |
| Codec.RoundTrip | pkg/mtg/scan.go:13-38 | scanning an encoding followed by anything gives back the values, bare zero decimals as explicit zeros, and what follows |
| Codec.RoundTripIntoZeros | pkg/mtg/scan.go:13-38 | the same into fresh zero destinations, empty fields included |
| Codec.EmptyFieldKeepsTheDestination | pkg/mtg/scan.go:22-25 | an empty field leaves its destination as it was, so the destinations must be fresh |
| Codec.MarketReqRoundTrip | core/proposal/market.go:31-102 | a market request decodes its own encoding, with asset ids in canonical spelling and bare zero decimals as explicit zeros |
| Codec.OldFormReadsAsZeroPledge | core/proposal/market.go:93-98 | the older form without the trailing field decodes with a zero pledge limit |

## Left out

- The Mixin client, multisig signing, raw transactions and the syncer's pull: network calls over a client that is not shown; outputs simply arrive.
- Price signatures, oracle signers and keys: a price update is an arbitrary new price with its time; a price memo that fails verification falls through to the ordinary actions in the source and is idle in the model.
- Memo decoding beyond the field codec, the lookup of a seized address, the creation of user rows and deposits without an action: outputs carry their decoded action, and what the source passes over without a refund is `Unreadable`.
- Upserting, opening and closing markets, oracle signers and properties: proposal effects that only set fields; in the ledger modules the system version is fixed over a run and at least 4, and older handlers are not modelled; `Voting` and `Effects` model the stored and the loaded version.
- Proposal messages, shouts and the forwarding of staff proposals: they write no vote. What validation finds in a proposal of any kind but a new version is part of its content.
- The display values in transaction extras: only the amounts a handler reads back are kept.
- Refund memos: the trace of a refund depends on its reason, modelled as an enumeration; derived trace ids are taken as injective.
- Column rounding in the database: amounts are stated before storage, so the refund of a liquidation keeps all its digits.
- Division by zero, which panics in the library, gives 0 in `Div`; well-formed markets and `Ledger.Legal` keep every divisor positive.
- RoundTrip.NoGainFromARoundTrip: covers two consecutive outputs; outputs of others in between are not considered.
- Rows whose market is missing: the worker's liquidity calculation fails on them as in the source and the output is tried again; `Handlers.Slots` values such rows at nothing. In a well-formed ledger there are none.
- The shown rate columns are computed by `Rates.AccrueInterest` and not stored in the model's market rows, since no handler reads them.
- The coefficient of a decimal is identified with its marshalled bytes, and a UUID with its 16 bytes; the text forms of decimals do not occur.
