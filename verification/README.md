# StepFi lending protocol: a verified model

StepFi lends against a learner's reputation. Sponsors deposit tokens into a liquidity pool and receive shares; a
borrower puts up a guarantee, the pool pays the vendor the rest, and the borrower repays principal, interest, a
service fee and late fees. A loan that stays unpaid defaults: the guarantee goes to the pool and the providers absorb
what it does not cover. A committee governs the protocol parameters, and mentors lift a learner's score by vouching.

This project states that behaviour as four state machines and proves what the protocol promises of them, for every
input, every reachable state and every run. `dafny verify dfyconfig.toml` checks all of it.

## How it is organised

Each contract appears twice. A model on values says what each entry point accepts, which error it returns and which
state it leaves; the properties are proved about it. A class with the contract's storage fields follows the source
statement by statement, loops included, and is proved against that model: `r` and the new state are those of the model.
Calls into other contracts are calls on the other objects. The host applies an accepted call and rolls back a rejected
one: `Protocol.Chain.Invoke`, `Governance.ParametersContract.Invoke` and `Vouching.VouchingContract.Invoke` do exactly
that, so their objects always hold a reachable state and every theorem about runs applies to them.

| part | model | proofs | classes |
|---|---|---|---|
| results, fixed-width arithmetic, token, scores | `Common`, `Token`, `Reputation` | `Arithmetic` | `TokenContract`, `ReputationContract` |
| one loan: late fees, waterfall | `LoanModel` | `LoanProofs` | methods of `CreditLine` |
| paged loan index | `LoanIndex` | `LoanIndex`, `IndexTheorems` | `IndexStore` |
| liquidity pool | `PoolModel` | `PoolProofs`, `FundingLog` | `PoolContract` |
| credit line, pool and token composed | `ProtocolModel` | `BookProofs`, `ProtocolProofs`, `LifecycleProofs`, `ProtocolRuns` and the other `...Theorems` files and `ReachableExamples` | `CreditLineContract`, `Chain` |
| governance | `GovernanceModel` | `GovernanceProofs`, `GovernanceTheorems` | `ParametersContract` |
| vouching | `VouchingModel` | `VouchingProofs`, `VouchingTheorems` | `VouchingContract` |

Conventions: an address is a number compared only for equality; i128, u64 and u32 values are integers with the
width's limits written out, and an overflow is a rejected call; division truncates toward zero. Time, the ledger number,
the protocol parameters and the two vendor-registry answers are inputs of a call. Runs also contain what the rest of
the chain does: time passes, accounts move tokens, and other updaters set scores to anything from 0 to 100. The funding
log of the pool and the event log of governance are history: the calls only append to them.

## What the proofs found

Some promises hold only under a condition. Each has its exact condition, or a concrete state in which it fails:

- A default can leave the pool short. `receive_guarantee` both unlocks and adds the guarantee, so with two Active loans
  the available liquidity can exceed the token balance (`ReachableExamples.DefaultCanLeavePoolShort`). The exact
  condition for the balance to cover it after a default is `BackingTheorems.DefaultIsBackedIff`.
- Claims of the providers can exceed the real liquidity below par, because 1,000 units are virtual
  (`ReachableExamples.ClaimsCanExceedLiquidity`). At or above par they never do; the exact condition for what `withdraw`
  pays, rounding included, is `PoolProofs.ClaimsFitIff`, which is slightly wider.
- A borrower cannot pay a loan off while above 90 points: the reward would pass the maximum score and the whole
  repayment reverts (`AcceptanceTheorems.PayoffNeedsHeadroom`, `ReachableExamples.PayoffCanBeBlocked`). When a repayment
  is accepted, exactly, is `AcceptanceTheorems.RepaymentAcceptedIff` and `InstallmentAcceptedIff`.
- A loan cannot be marked defaulted while its borrower has fewer points than the penalty, so its principal stays locked
  (`ReachableExamples.DefaultCanBeBlocked`); the exact condition is `AcceptanceTheorems.DefaultAcceptedIff`.
- `approve_loan` does not check the credit limit again, so debts are bounded by the limit right after `create_loan` and
  not in general (`ReachableExamples.ApprovalCanExceedLimit`). When an approval keeps the limit, exactly, is
  `LendingTheorems.ApprovalKeepsLimitIff`.
- The page number of the loan index is a truncating cast, so the index is right exactly up to 2^37 loans of one borrower
  (`LoanIndex.AppendExtends`).
- The withdrawal that undoes a deposit is refused only when the price computation itself passes 128 bits
  (`PoolProofs.DepositWithdrawRoundTrip`).

Where code and documentation disagree, the model follows the code:

- The repository's README says late fees accrue per overdue installment, and the governed `late_fee_bps` is documented
  as their rate. The credit line charges a fixed 50 bps per day on the whole remaining balance from the earliest overdue
  date on, whether or not that installment was paid, and never reads `late_fee_bps`.
- `docs/architecture/contracts.md` promises a score increase of 10 for a repayment. The code adds 15 before the last due
  date and 10 from then on; the governed `full_repayment_reward` is not read.
- The README speaks of a cap per transaction. The code caps the outflow of a whole ledger.

## Model

| member | source | states |
|---|---|---|
| `ProtocolRuns.RunFollows` | contracts/creditline-contract/src/lib.rs:583-910 | from any world in order, every sequence of calls (accepted or rolled back) leaves a world in order: every bucket, running total, lock, escrow and index invariant holds, the credit line's surplus over its escrow never shrinks, and the pool's slack shrinks by no more than forfeited guarantees |
| `ProtocolRuns.ReachableOk` | contracts/creditline-contract/src/lib.rs:73-1160 | every world reachable from deployment satisfies the whole invariant |
| `ProtocolProofs.StepFollows` | contracts/creditline-contract/src/lib.rs:73-1160 | each accepted entry point, time step, outside transfer or score change keeps the composed invariant |
| `ProtocolTheorems.RunningDebtIsActiveBalance` | contracts/creditline-contract/src/storage.rs:161-197 | a borrower's stored debt always equals the sum of the balances of its Active loans, hence is never negative |
| `ProtocolTheorems.EveryRecordInOrder` | contracts/creditline-contract/src/lib.rs:1229-1257 | in every reachable world all four buckets are non-negative and add up to the balance; Paid exactly at balance 0; an Active loan has principal left |
| `ProtocolTheorems.CreationRespectsLimit` | contracts/creditline-contract/src/lib.rs:464-470 | right after `create_loan` the sum of the borrower's Active balances is within the credit limit of its score |
| `ProtocolTheorems.LockedIsCovered` | contracts/liquidity-pool-contract/src/lib.rs:391-441 | locked liquidity is between 0 and the total, never exceeds the uncovered (hence the whole) Active principal, and is 0 once no loan is Active |
| `ProtocolTheorems.EscrowIsHeld` | contracts/creditline-contract/src/lib.rs:412-437 | the credit line always holds at least the guarantees of all Pending and Active loans |
| `ProtocolTheorems.RefundNeverShort` | contracts/creditline-contract/src/lib.rs:769-774 | the refund-shortfall branch of `cancel_loan` is unreachable, and its refund transfer never lacks funds |
| `ProtocolTheorems.EscrowIsConserved` | contracts/creditline-contract/src/lib.rs:839-877 | absent outside transfers, balance minus escrow is constant over any run: exactly what is pulled in is forwarded or held |
| `TermsTheorems.TermsOfALoan` | contracts/creditline-contract/src/lib.rs:440-518 | what an accepted `create_loan` or `request_loan` stores, in numbers: rate 400, 600, 800 or 1,000 bps by score band, or the governed base less 600, 400, 200 or 0 and never below 0; interest and the 1% service fee rounded down; balance their sum with the price; parties, schedule, status and times as called for; no other record changes |
| `TermsTheorems.BetterScoreNeverPaysMore` | contracts/creditline-contract/src/lib.rs:501-518 | of two scores under the same base rate, the higher never pays the higher rate |
| `TermsTheorems.CreationAcceptedIff` | contracts/creditline-contract/src/lib.rs:73-131 | `create_loan` is accepted exactly if the borrower signs, the vendor is active, guarantee percentage and minimum score are met, debt and balance stay within 10,000, 5,000, 2,500 or 1,000 by score band, the guarantee is at hand and the pool can and may pay the rest |
| `TermsTheorems.RequestAcceptedIff` | contracts/creditline-contract/src/lib.rs:133-181 | `request_loan` is accepted in the same cases, whatever the pool has |
| `TermsTheorems.FundingAcceptedIff` | contracts/liquidity-pool-contract/src/lib.rs:366-441 | the pool pays exactly within its free liquidity, the ledger's outflow cap, the vendor's exposure ceiling, its own registry's answer and the tokens it holds |
| `TermsTheorems.RequestMovesGuarantee` | contracts/creditline-contract/src/lib.rs:133-181 | a request moves its guarantee into escrow and no other balance, pool figure or debt |
| `TermsTheorems.ApprovalAcceptedIff` | contracts/creditline-contract/src/lib.rs:679-752 | `approve_loan` is accepted exactly from the administrator, for a Pending loan with a non-empty schedule all of which lies ahead, an active vendor, a sufficient score and a pool that can and may pay |
| `TermsTheorems.ApprovalActivates` | contracts/creditline-contract/src/lib.rs:712-740 | an approval makes the record Active and funded now, adds its balance to the borrower's debt and pays the vendor from the pool; nothing else moves |
| `TermsTheorems.CancellationAcceptedIff` | contracts/creditline-contract/src/lib.rs:754-793 | `cancel_loan` is accepted exactly from the borrower or the administrator while the loan is Pending |
| `InstallmentTheorems.InstallmentIsMarkedPaid` | contracts/creditline-contract/src/lib.rs:917-1020 | an accepted `repay_installment` marks the named installment, unpaid before, paid at the current time; its date and amount, all other installments and all other records stay |
| `InstallmentTheorems.InstallmentIsPaidOnce` | contracts/creditline-contract/src/lib.rs:949-951 | in no run is an installment paid twice: once if it ends up paid without having started so, else never; price, guarantee, rate, fees, type, creation time and every installment's date and amount never change |
| `InstallmentTheorems.PaidForGood` | contracts/creditline-contract/src/lib.rs:949-984 | once paid, an installment stays paid whatever calls follow, and every later payment of it is rejected, with InstallmentAlreadyPaid while the loan is the caller's and Active |
| `ServicingTheorems.AccrualCharges` | contracts/creditline-contract/src/lib.rs:1060-1134 | an accrual charges half a percent of the balance per whole 86,400 s since the cursor or the first due date, rounded down, and nothing on an empty schedule; a fee of 0 leaves the cursor |
| `ServicingTheorems.LateFeesAcceptedIff` | contracts/creditline-contract/src/lib.rs:1136-1166 | `apply_late_fees` is accepted exactly on an Active loan |
| `ServicingTheorems.LateFeesAreBooked` | contracts/creditline-contract/src/lib.rs:1136-1166 | it stores the accrual and adds its fee to the borrower's debt, and changes nothing else |
| `ServicingTheorems.RepaymentIsBooked` | contracts/creditline-contract/src/lib.rs:795-910 | a repayment through either entry point accrues the late fees, eats up late fees, interest, service fee and principal in that order, and takes the amount off the borrower's debt alone |
| `ErrorTheorems.PurchaseErrors` | contracts/creditline-contract/src/lib.rs:73-181 | whatever error `create_loan` or `request_loan` returns, what that error says is the case |
| `ErrorTheorems.FundingErrors` | contracts/liquidity-pool-contract/src/lib.rs:366-441 | likewise for the funding of a loan, the outflow and exposure caps included |
| `ErrorTheorems.ApprovalErrors` | contracts/creditline-contract/src/lib.rs:679-752 | likewise for `approve_loan` |
| `ErrorTheorems.LoanErrors` | contracts/creditline-contract/src/lib.rs:583-1020 | likewise for cancellation, both repayments, late fees and default |
| `ErrorTheorems.DepositErrors` | contracts/liquidity-pool-contract/src/lib.rs:215-291 | likewise for deposits |
| `ErrorTheorems.WithdrawalErrors` | contracts/liquidity-pool-contract/src/lib.rs:293-364 | likewise for withdrawals |
| `PoolTheorems.InterestIsSplit` | contracts/liquidity-pool-contract/src/lib.rs:667-739 | interest raises the liquidity by 85% of it rounded down, the treasury gets a tenth rounded down and the merchant fund the rest; an unset recipient's part stays with the pool and nobody else's balance moves |
| `PoolTheorems.RepaymentIsSplit` | contracts/liquidity-pool-contract/src/lib.rs:464-510 | a repayment unlocks its principal and splits its interest in the same way |
| `PoolTheorems.RepaymentsMoveMoney` | contracts/creditline-contract/src/lib.rs:839-877 | every balance, the liquidity and the lock after `repay_loan` or `repay_installment`: fees and interest first, split 85 to 10 to the rest, the remainder unlocking, the guarantee back with the payment that settles the loan |
| `PoolTheorems.DepositIssues` | contracts/liquidity-pool-contract/src/lib.rs:215-291 | a deposit gets amount * 10,000 / price shares, the price being (liquidity + 1,000) * 10,000 / shares and at least 1, with 1,000 shares of the pool's own from the first deposit on |
| `PoolTheorems.DepositAcceptedIff` | contracts/liquidity-pool-contract/src/lib.rs:215-291 | a deposit is accepted exactly if it is at least 1,000, buys a share and is at hand |
| `PoolTheorems.WithdrawalReturns` | contracts/liquidity-pool-contract/src/lib.rs:293-364 | a withdrawal pays shares * price / 10,000 and burns the shares |
| `PoolTheorems.WithdrawalAcceptedIff` | contracts/liquidity-pool-contract/src/lib.rs:293-364 | a withdrawal is accepted exactly if the provider has the shares and their worth is unlocked and at hand |
| `PoolTheorems.CapsAcceptedIff` | contracts/liquidity-pool-contract/src/lib.rs:66-88 | the outflow cap is set exactly up to 10,000 bps, the exposure ceiling exactly when not negative, and nothing else moves |
| `PoolTheorems.CapsStayInRange` | contracts/liquidity-pool-contract/src/lib.rs:66-88 | in every reachable world the outflow cap is at most 10,000 bps and ceiling, window and exposures are not negative |
| `PoolTheorems.DefaultWritesOff` | contracts/liquidity-pool-contract/src/lib.rs:512-598 | what a default does to lock and liquidity, in terms of principal and guarantee, and to the borrower's debt |
| `LendingTheorems.DefaultCostsPoints` | contracts/creditline-contract/src/lib.rs:529-536 | an accepted default costs the borrower exactly `default_penalty` up to the large-loan threshold and exactly `large_loan_default_penalty` above it, and nobody else anything |
| `GuaranteeTheorems.ClosedIsForever` | contracts/creditline-contract/src/lib.rs:754-761 | a Paid, Defaulted or Cancelled record never changes again, whatever calls follow |
| `GuaranteeTheorems.GuaranteeIsPaidOutOnce` | contracts/creditline-contract/src/lib.rs:624-633 | absent gifts, over any run the credit line takes in exactly the guarantee on account of a loan, and pays out all of it once the loan is closed and none of it before |
| `GuaranteeTheorems.ReleasedExactlyOnce` | contracts/creditline-contract/src/lib.rs:754-761 | over any run, gifts included, a loan's record leaves the open statuses exactly once if it was closed in the run and not at all otherwise |
| `GuaranteeTheorems.CancelRefunds` | contracts/creditline-contract/src/lib.rs:776-787 | an accepted cancellation moves exactly the guarantee from the credit line to the borrower |
| `GuaranteeTheorems.DefaultForfeits` | contracts/creditline-contract/src/lib.rs:624-642 | an accepted default moves exactly the guarantee from the credit line to the pool |
| `GuaranteeTheorems.PaymentSettles` | contracts/creditline-contract/src/lib.rs:999-1020 | a payment through either entry point costs the borrower exactly its amount, the guarantee comes back if and only if it settles the accrued balance, and the credit line keeps nothing but pool fees addressed to it |
| `AcceptanceTheorems.RepaymentAcceptedIff` | contracts/creditline-contract/src/lib.rs:795-910 | with amounts up to 2^96, `repay_loan` is accepted if and only if the loan is an Active one of the caller, the amount is positive, within the accrued balance and in hand, and, to settle the loan, score plus reward is at most 100; nothing else on the way can fail |
| `AcceptanceTheorems.InstallmentAcceptedIff` | contracts/creditline-contract/src/lib.rs:917-1050 | the same for `repay_installment`, which further needs an installment that exists and is not paid |
| `AcceptanceTheorems.PayoffNeedsHeadroom` | contracts/creditline-contract/src/lib.rs:1168-1187 | whatever the amounts, a settling payment through either entry point is accepted only if score plus reward is at most 100, so never above 90 points |
| `AcceptanceTheorems.DefaultAcceptedIff` | contracts/creditline-contract/src/lib.rs:583-677 | with amounts up to 2^96, `mark_defaulted` is accepted if and only if the loan is Active with a schedule, its grace period is over and its borrower has at least the points of the penalty |
| `PriceTheorems.PriceNeverFalls` | contracts/liquidity-pool-contract/src/lib.rs:825-850 | over any run in which no accepted default costs the pool more than it recovers, the quoted share price never falls |
| `PriceTheorems.ApplyKeepsPrice` | contracts/liquidity-pool-contract/src/lib.rs:245-337 | every single call except such a default leaves the quoted price at least where it was |
| `PriceTheorems.DefaultLowersLiquidityIff` | contracts/liquidity-pool-contract/src/lib.rs:526-581 | an accepted default lowers the total liquidity if and only if the uncovered principal exceeds what the guarantee recovers from the lock and there is liquidity to lose |
| `PriceTheorems.ClaimsAreCovered` | contracts/liquidity-pool-contract/src/lib.rs:231-270 | in every reachable pool the shares are 1,000 dead ones plus the providers'; at or above par all floor-rounded claims together fit in the liquidity, with the stronger bound while the price is not clamped |
| `ExitTheorems.EveryoneCanLeave` | contracts/liquidity-pool-contract/src/lib.rs:293-344 | after any run from deployment that leaves no loan Active and none Defaulted, all providers can withdraw all their shares one after another, in any order; none is refused and each gets at least a token a share |
| `ExitTheorems.NobodyIsRefused` | contracts/liquidity-pool-contract/src/lib.rs:293-344 | the same from any pool at or above par with nothing locked and its liquidity at hand |
| `BackingTheorems.BackedUpToForfeits` | contracts/liquidity-pool-contract/src/lib.rs:317-343 | pool balance plus the guarantees of all Defaulted loans covers total minus locked liquidity in every reachable world |
| `BackingTheorems.BackedWithoutDefaults` | contracts/liquidity-pool-contract/src/lib.rs:391-446 | without defaults the token balance alone covers the available liquidity |
| `BackingTheorems.DefaultIsBackedIff` | contracts/liquidity-pool-contract/src/lib.rs:526-581 | after a default the balance covers the available liquidity if and only if the slack before it, the guarantee and the loss taken off the total make up for the recovered part, counted twice, and the loss taken off the lock |
| `BackingTheorems.BackedOneAtATime` | contracts/liquidity-pool-contract/src/lib.rs:568-581 | with at most one Active loan at any point of the run, defaults included, the balance always covers the available liquidity |
| `BackingTheorems.BackedWithdrawalPays` | contracts/liquidity-pool-contract/src/lib.rs:323-343 | when the balance covers the available liquidity, no withdrawal that passes the accounting fails in the token |
| `BackingTheorems.BackedFundingPays` | contracts/liquidity-pool-contract/src/lib.rs:391-446 | when the balance covers the available liquidity, no approval fails for want of the pool's tokens |
| `BackingTheorems.BackedCreationPays` | contracts/liquidity-pool-contract/src/lib.rs:391-446 | nor does a creation, unless it is the borrower who lacks the guarantee |
| `ReachableExamples.DefaultCanLeavePoolShort` | contracts/liquidity-pool-contract/src/lib.rs:526-538 | a reachable world with two Active loans in which one default leaves 800 available against a balance of 600, so that a withdrawal within the accounting is refused by the token |
| `ReachableExamples.ClaimsCanExceedLiquidity` | contracts/liquidity-pool-contract/src/lib.rs:839-849 | a reachable world below par (price 8000) in which the providers claim 1,600 of a liquidity of 1,400, because of the virtual 1,000 |
| `ReachableExamples.PayoffCanBeBlocked` | contracts/creditline-contract/src/lib.rs:1168-1187 | a reachable world in which a borrower with 91 points holds all that an Active loan owes and both entry points refuse the payoff |
| `ReachableExamples.DefaultCanBeBlocked` | contracts/creditline-contract/src/lib.rs:654-676 | a reachable world in which an overdue loan cannot be marked defaulted, its principal still locked, because the borrower has fewer points than the penalty takes |
| `RepaymentTheorems.SplittingIsNeutral` | contracts/creditline-contract/src/lib.rs:818-850 | any sequence of accepted `repay_loan` calls at one timestamp leaves the same record and borrower debt as one payment of the sum |
| `RepaymentTheorems.PartsAgainstOnce` | contracts/creditline-contract/src/lib.rs:795-910 | accepted parts and one accepted payment of their sum leave the same records, debt, scores, shares and locked liquidity; total liquidity is lower by less than one unit a payment, the rounding of the providers' cut |
| `RepaymentTheorems.OnceIsAccepted` | contracts/creditline-contract/src/lib.rs:795-910 | when the parts are accepted, so is the one payment, from a borrower who does not receive the pool's fees |
| `IndexTheorems.IndexListsLoans` | contracts/creditline-contract/src/storage.rs:95-143 | in every reachable world, for each borrower with at most 2^37 loans of its own, the pages hold exactly its loan ids in creation order, 32 to a page, and every id resolves to a loan of the borrower |
| `FundingTheorems.WindowRefinesLog` | contracts/liquidity-pool-contract/src/storage.rs:262-292 | the stored window equals the sum of all fundings logged in its ledger when the cap was on throughout it; a merchant's stored exposure equals its log sum |
| `FundingTheorems.OutflowStaysWithinCap` | contracts/liquidity-pool-contract/src/lib.rs:402-419 | every logged funding of a ledger capped throughout left that ledger's sum within cap_bps/10000 of the liquidity available just before it |
| `LendingTheorems.OpeningMovesMoney` | contracts/creditline-contract/src/lib.rs:412-437 | an accepted `create_loan` moves the guarantee from borrower to escrow and the rest of the price from pool to vendor, and nobody else's balance |
| `LendingTheorems.ApprovedRequestIsCreation` | contracts/creditline-contract/src/lib.rs:679-752 | requesting a loan and approving it at once is accepted if and only if creating it is and the schedule is not empty and lies ahead; it then leaves the same world |
| `LendingTheorems.ApprovalKeepsLimitIff` | contracts/creditline-contract/src/lib.rs:704-721 | an accepted approval leaves the borrower's debt within the credit limit if and only if there was room for the loan's balance before it |
| `ReachableExamples.ApprovalCanExceedLimit` | contracts/creditline-contract/src/lib.rs:704-721 | a reachable world in which a borrower owes 1,070 against a limit of 1,000, the score having dropped between request and approval |
| `LendingTheorems.ScoresMoveOnlyWhenLoansEnd` | contracts/creditline-contract/src/lib.rs:1168-1187 | no call but a settling payment raises a score (15 before the last due date, 10 after) and none but a default lowers one (by the penalty of the loan's size) |
| `LoanProofs.LateFeeGrowthBound` | contracts/creditline-contract/src/lib.rs:1060-1129 | charging D days in k non-zero accruals takes a balance R0 to R with R*200^D <= R0*201^D and 200*R >= 200*R0 + R0*D - 199*k, however the accruals are spread |
| `LoanProofs.CursorAccountsForDays` | contracts/creditline-contract/src/lib.rs:1060-1129 | over any interleaving of accruals, repayments and installment payments the cursor equals the earliest due date plus 86,400 times the days charged, and never passes the clock |
| `LateFeeTheorems.CursorAccountsForRun` | contracts/creditline-contract/src/lib.rs:1060-1129 | in any run from deployment the cursor of every stored loan is 0 if its calls charged no day, and else its earliest due date plus 86,400 times the days they charged, never past the clock |
| `LateFeeTheorems.BalanceGrowthBound` | contracts/creditline-contract/src/lib.rs:1060-1160 | the growth bound for every stored loan over any run of the protocol in which nobody pays it, in terms of the days and the calls charged to it |
| `LoanProofs.SecondAccrualChargesNothing` | contracts/creditline-contract/src/lib.rs:1096-1118 | a second accrual at the same timestamp charges 0, also after a payment and also when the first fee rounded to 0 |
| `LoanProofs.WaterfallIsTheOnlyPriorityOrder` | contracts/creditline-contract/src/lib.rs:1229-1257 | the waterfall is the one and only allocation that adds up to the payment, exceeds no bucket and touches a bucket only when all earlier ones are emptied |
| `LoanProofs.PayKeepsLoan` | contracts/creditline-contract/src/lib.rs:839-845 | a payment keeps the bucket invariant and makes the loan Paid exactly when it equals the balance |
| `LoanProofs.AccrueKeepsLoan` | contracts/creditline-contract/src/lib.rs:1106-1126 | an accrual keeps the bucket invariant and adds one and the same fee to the late-fee bucket and the balance |
| `LoanProofs.EarliestDueIsLeast` | contracts/creditline-contract/src/lib.rs:1063-1083 | the accrual starts from the minimum of the schedule's due dates |
| `LoanProofs.SplittingIsNeutral` | contracts/creditline-contract/src/lib.rs:818-845 | repayments at one timestamp compose: accruing and paying in parts is accruing once and paying the sum |
| `CreditLine.AccrueLateFees` | contracts/creditline-contract/src/lib.rs:1060-1129 | the scan over the schedule and the checked arithmetic compute the accrual that the fee theorems are about |
| `CreditLine.ApplyWaterfall` | contracts/creditline-contract/src/lib.rs:1229-1257 | the stepwise subtraction computes the allocation in priority order; none of its checked subtractions can fail on a loan in order |
| `PoolProofs.DepositWithdrawRoundTrip` | contracts/liquidity-pool-contract/src/lib.rs:227-325 | withdrawing at once the shares a deposit issued is refused only if the price computation itself overflows; it returns at most the deposit and loses strictly less than p/10000 + 1, including the first deposit and the clamped price |
| `PoolProofs.DepositEffect` | contracts/liquidity-pool-contract/src/lib.rs:215-285 | an accepted deposit issues the floor of amount*10000/price shares, moves exactly the amount and keeps the share ledger equal to 1,000 plus all providers' shares |
| `PoolProofs.WithdrawEffect` | contracts/liquidity-pool-contract/src/lib.rs:293-344 | an accepted withdrawal pays the floor of shares*price/10000 from available liquidity, burns exactly the shares and keeps the share ledger |
| `PoolProofs.DepositKeepsPrice` | contracts/liquidity-pool-contract/src/lib.rs:236-270 | a deposit never lowers the quoted price, seeding of the dead shares included |
| `PoolProofs.WithdrawKeepsPrice` | contracts/liquidity-pool-contract/src/lib.rs:309-337 | a withdrawal never lowers the quoted price for those who stay |
| `PoolProofs.CreditLineKeepsPrice` | contracts/liquidity-pool-contract/src/lib.rs:366-625 | funding, repayments, guarantees and interest distributions never lower the quoted price |
| `PoolProofs.AbsorbLowersPrice` | contracts/liquidity-pool-contract/src/lib.rs:553-586 | absorbing a loss keeps the accounting in range and never raises the price |
| `PoolProofs.SharePriceIsQuote` | contracts/liquidity-pool-contract/src/lib.rs:825-850 | a price that fits 128 bits is the floor of (liquidity + 1000)*10000/shares clamped to at least 1 |
| `PoolProofs.WithdrawAccepted` | contracts/liquidity-pool-contract/src/lib.rs:293-325 | a withdrawal within shares, liquidity and balance is accepted if and only if the price computation fits 128 bits |
| `PoolProofs.ClaimsCovered` | contracts/liquidity-pool-contract/src/lib.rs:839-849 | all claims at the quoted price leave the dead shares their part; at or above par they are covered by the real liquidity |
| `PoolProofs.ClaimsFitIff` | contracts/liquidity-pool-contract/src/lib.rs:315-318 | the floor-rounded claims of the providers fit in the liquidity however the shares are divided among them, if and only if shares*price < (liquidity + 1)*10000 |
| `PoolProofs.ClaimsFit` | contracts/liquidity-pool-contract/src/lib.rs:839-849 | so the claims of a pool fit whenever its statistics pass that test |
| `PoolProofs.ParIsTheBorder` | contracts/liquidity-pool-contract/src/lib.rs:839-849 | before any rounding, the providers' pro-rata value fits in the real liquidity if and only if the pool quotes at least par |
| `PoolProofs.FundEffect` | contracts/liquidity-pool-contract/src/lib.rs:366-453 | an accepted funding locks exactly the amount and pays it from the pool to the merchant |
| `PoolProofs.SplitEffect` | contracts/liquidity-pool-contract/src/lib.rs:667-739 | interest raises the liquidity by the providers' 85% and pays exactly the configured fees; the fee of an unset recipient stays in the pool |
| `PoolProofs.CutsAddUp` | contracts/liquidity-pool-contract/src/lib.rs:680-698 | the three cuts are non-negative and never exceed the interest |
| `PoolProofs.RepaymentEffect` | contracts/liquidity-pool-contract/src/lib.rs:464-503 | a repayment unlocks its principal, capped at what is locked, and moves exactly principal plus interest into the pool |
| `PoolProofs.GuaranteeEffect` | contracts/liquidity-pool-contract/src/lib.rs:512-543 | a forfeited guarantee unlocks and adds the same amount, capped at what is locked, while the whole of it arrives |
| `FundingLog.FundKeepsLog` | contracts/liquidity-pool-contract/src/lib.rs:391-441 | an accepted funding extends the log by itself, keeps window and exposures equal to the log and respects both caps |
| `Arithmetic.CheckedWidths` | contracts/creditline-contract/src/safe_math.rs:3-21 | the checked operations accept exactly results that fit 128 bits signed or 64 bits unsigned, and return them |
| `Arithmetic.DivisionTruncates` | contracts/creditline-contract/src/safe_math.rs:15-17 | division truncates toward zero: the remainder is smaller than the divisor and has the dividend's sign |
| `Token.TransferMoves` | contracts/liquidity-pool-contract/src/lib.rs:275-276 | a transfer changes only its two ends, by its amount |
| `Token.TransferAccepted` | contracts/creditline-contract/src/lib.rs:856-857 | a transfer is accepted if and only if the sender holds the non-negative amount and the receiver's balance fits |
| `Token.TokenContract.Send` | contracts/liquidity-pool-contract/src/lib.rs:275-276 | the balance map after a transfer, unchanged on failure |
| `LiquidityPool.PoolContract.QuotePrice` | contracts/liquidity-pool-contract/src/lib.rs:825-850 | the stepwise computation returns the specified share price |
| `LiquidityPool.PoolContract.Deposit` | contracts/liquidity-pool-contract/src/lib.rs:215-285 | object and token end in the specified state and the specified shares or error are returned |
| `LiquidityPool.PoolContract.Withdraw` | contracts/liquidity-pool-contract/src/lib.rs:293-344 | object and token end in the specified state and the specified amount or error is returned |
| `LiquidityPool.PoolContract.CountOutflow` | contracts/liquidity-pool-contract/src/lib.rs:402-419 | the rolling window advances as specified or the cap refuses |
| `LiquidityPool.PoolContract.FundLoan` | contracts/liquidity-pool-contract/src/lib.rs:366-453 | caps, window, exposure, lock and transfer in the code's order reach the specified state or error |
| `LiquidityPool.PoolContract.ReceiveRepayment` | contracts/liquidity-pool-contract/src/lib.rs:464-503 | unlocking, pulling and distributing reach the specified state or error |
| `LiquidityPool.PoolContract.ReceiveGuarantee` | contracts/liquidity-pool-contract/src/lib.rs:512-543 | recovering a forfeited guarantee reaches the specified state or error |
| `LiquidityPool.PoolContract.AbsorbLoss` | contracts/liquidity-pool-contract/src/lib.rs:553-586 | reductions capped at current values reach the specified state or error |
| `LiquidityPool.PoolContract.DistributeInterest` | contracts/liquidity-pool-contract/src/lib.rs:600-625 | pulling and splitting interest reach the specified state or error |
| `LiquidityPool.PoolContract.SplitInterest` | contracts/liquidity-pool-contract/src/lib.rs:667-739 | the fee split reaches the specified state or error |
| `LiquidityPool.PoolContract.SetOutflowCap` | contracts/liquidity-pool-contract/src/lib.rs:66-74 | only caps up to 10,000 bps are stored |
| `LiquidityPool.PoolContract.SetExposureCap` | contracts/liquidity-pool-contract/src/lib.rs:78-86 | only non-negative ceilings are stored |
| `CreditLine.CreditLineContract.Build` | contracts/creditline-contract/src/lib.rs:440-495 | prices, limits and numbers a loan as specified; only the counter changes |
| `CreditLine.CreditLineContract.CreateLoan` | contracts/creditline-contract/src/lib.rs:73-131 | all checks and writes in the code's order reach the specified composed state or error; returns the new id |
| `CreditLine.CreditLineContract.RequestLoan` | contracts/creditline-contract/src/lib.rs:133-177 | a Pending loan with its guarantee in escrow, as specified |
| `CreditLine.CreditLineContract.Approvable` | contracts/creditline-contract/src/lib.rs:692-709 | the schedule scan and re-validation accept exactly the specified loans |
| `CreditLine.CreditLineContract.ApproveLoan` | contracts/creditline-contract/src/lib.rs:679-752 | activation, debt and funding reach the specified composed state or error |
| `CreditLine.CreditLineContract.CancelLoan` | contracts/creditline-contract/src/lib.rs:754-793 | cancellation and refund reach the specified composed state or error |
| `CreditLine.CreditLineContract.RepayLoan` | contracts/creditline-contract/src/lib.rs:795-910 | accrual, waterfall, debt, forwarding, refund and reward reach the specified composed state or error; returns the new balance |
| `CreditLine.CreditLineContract.RepayInstallment` | contracts/creditline-contract/src/lib.rs:917-1050 | the same for an installment, which is marked paid |
| `CreditLine.CreditLineContract.ApplyLateFees` | contracts/creditline-contract/src/lib.rs:1136-1160 | permissionless accrual reaches the specified state or error |
| `CreditLine.CreditLineContract.MarkDefaulted` | contracts/creditline-contract/src/lib.rs:583-677 | grace check, write-off, forfeiture, absorbed loss and penalty reach the specified composed state or error |
| `CreditLine.CreditLineContract.Write` | contracts/creditline-contract/src/storage.rs:68-78 | storing a loan enters it in the index exactly when it is new |
| `CreditLine.CreditLineContract.UserLoans` | contracts/creditline-contract/src/storage.rs:145-159 | resolves exactly the requested slice of the borrower's loans, oldest first |
| `LoanIndex.SliceReads` | contracts/creditline-contract/src/storage.rs:95-143 | a paginated read returns `limit` entries from `start` on or as many as there are, and consecutive reads join up |
| `LoanIndex.AppendExtends` | contracts/creditline-contract/src/storage.rs:199-222 | appending extends the sequence a borrower's pages stand for by the new id, if and only if fewer than 2^37 entries precede it |
| `LoanIndex.AppendFrame` | contracts/creditline-contract/src/storage.rs:199-222 | appending leaves every other borrower's sequence alone |
| `LoanIndex.FlattenIsSequence` | contracts/creditline-contract/src/storage.rs:68-78 | pages that represent a sequence flatten to it |
| `LoanIndex.IndexStore.Add` | contracts/creditline-contract/src/storage.rs:199-222 | the in-place append reaches the specified index or error |
| `LoanIndex.IndexStore.Read` | contracts/creditline-contract/src/storage.rs:95-143 | the nested loop terminates and returns exactly the entries from `start` to min(start + limit, count); it never meets the missing-page error |
| `BookProofs.StoreChanged` | contracts/creditline-contract/src/storage.rs:161-197 | writing a changed record back moves every running total by exactly the difference the record makes |
| `BookProofs.StoreNew` | contracts/creditline-contract/src/lib.rs:464-495 | entering a new record adds exactly its share to every running total |
| `LifecycleProofs.StepIsBookStep` | contracts/creditline-contract/src/lib.rs:73-1160 | every call keeps each loan's identity, parties, terms and guarantee, moves its status only forward, and enters at most one new loan |
| `Reputation.ReputationContract.Increase` | contracts/reputation-contract/src/lib.rs:35-61 | raises a score, refusing to pass 100 |
| `Reputation.ReputationContract.Decrease` | contracts/reputation-contract/src/lib.rs:65-87 | lowers a score, refusing to pass 0 |
| `Protocol.Chain.Invoke` | contracts/creditline-contract/src/lib.rs:73-1160 | one invocation on the wired contract objects is one step of the composed model; a rejected call leaves every object as it was, so the objects always hold a reachable world |
| `Protocol.Chain.InvokePool` | contracts/liquidity-pool-contract/src/lib.rs:66-344 | a provider's or the pool administrator's call on the objects is the specified step |
| `Protocol.Chain.InvokeLending` | contracts/creditline-contract/src/lib.rs:73-793 | creation, request, approval and cancellation on the objects are the specified steps |
| `Protocol.Chain.InvokeServicing` | contracts/creditline-contract/src/lib.rs:583-1160 | repayments, accrual and default on the objects are the specified steps |
| `Protocol.Chain.constructor` | contracts/creditline-contract/src/lib.rs:51-71 | the deployed objects hold an initial world |
| `GovernanceTheorems.GovernedStateIsAccountedFor` | contracts/parameters-contract/src/lib.rs:160-195 | in any run administrator, parameters, committee and version equal the fold of the confirmation and the executed proposals, in execution order |
| `GovernanceTheorems.EveryExecutionWasApproved` | contracts/parameters-contract/src/lib.rs:160-195 | each execution happened within 604,800 s of creation with at least the required quorum (two or more) of distinct approvers, all in the snapshot and in the committee of that moment |
| `GovernanceTheorems.ExecutedExactlyOnce` | contracts/parameters-contract/src/lib.rs:164-168 | no proposal is executed twice, and the executed flags are exactly the log |
| `GovernanceTheorems.AdministratorActsOnce` | contracts/parameters-contract/src/lib.rs:43-79 | the administrator alone changes governed state once, by the confirmation; everything later is an execution |
| `GovernanceTheorems.SignerChangesAreFresh` | contracts/parameters-contract/src/lib.rs:234-259 | a change of signers neither executed nor voided has a snapshot equal to the current signers; no proposal is both |
| `GovernanceTheorems.QuorumIsWithinReach` | contracts/parameters-contract/src/lib.rs:277-289 | the quorum is the threshold, and for a change of signers one more up to everyone; always between two and the committee size |
| `GovernanceTheorems.ExecutesIff` | contracts/parameters-contract/src/lib.rs:160-182 | execution is accepted if and only if the proposal is neither executed nor voided and at most 604,800 s old, has the votes needed and, unless it changes the signers, every approver still is a signer |
| `GovernanceTheorems.CommitteeCanChangeItself` | contracts/parameters-contract/src/lib.rs:127-195 | once every signer has been called to approve it, an open change of signers executes |
| `GovernanceTheorems.FoldKeepsValid` | contracts/parameters-contract/src/lib.rs:300-322 | parameters and committee are valid after every prefix of the log |
| `GovernanceTheorems.VersionCountsUpgrades` | contracts/parameters-contract/src/lib.rs:226-232 | the version counts executed upgrades, saturating at 32 bits |
| `CommitteeTheorems.VotersDecide` | contracts/parameters-contract/src/lib.rs:85-195 | whatever calls follow a proposal: while the committee stays the same and the proposal undecided, it can be executed exactly if its proposer and the members who have called to approve it are as many as the action needs |
| `CommitteeTheorems.BallotPasses` | contracts/parameters-contract/src/lib.rs:127-195 | in particular, enough other distinct signers approving one after another carry it |
| `CommitteeTheorems.ProposalStartsWithItsProposer` | contracts/parameters-contract/src/lib.rs:85-125 | an accepted proposal starts with its proposer's approval alone, the signers of the moment as snapshot, its action and time, neither executed nor voided; older proposals stay as they are |
| `CommitteeTheorems.ApprovalsAreTheVotes` | contracts/parameters-contract/src/lib.rs:127-155 | over any run the stored approvals are those there were followed by the signers of the accepted approvals, in order, and action, snapshot and times never change |
| `CommitteeTheorems.ProposalAcceptedIff` | contracts/parameters-contract/src/lib.rs:85-125 | a proposal is accepted exactly from a signer with a payload in range |
| `CommitteeTheorems.ApprovalAcceptedIff` | contracts/parameters-contract/src/lib.rs:127-155 | an approval is accepted exactly once from each current signer in the snapshot, for seven days, until execution or voiding |
| `CommitteeTheorems.ExecutionVoids` | contracts/parameters-contract/src/lib.rs:234-259 | a change of signers voids exactly the other changes of signers not yet executed; any other execution voids nothing |
| `CommitteeTheorems.SetUpAcceptedIff` | contracts/parameters-contract/src/lib.rs:43-79 | set-up and confirmation are accepted exactly from the administrator before there is a committee, with distinct signers and a threshold between 2 and their number |
| `CommitteeTheorems.SetUpTakesEffect` | contracts/parameters-contract/src/lib.rs:43-79 | a committee set up by the administrator waits unchanged, whatever is called, and becomes the committee on confirmation |
| `CommitteeTheorems.GovernedStateIsValid` | contracts/parameters-contract/src/lib.rs:300-322 | in every reachable state 0 < guarantee percentage <= 100, the threshold for large loans is positive, and a committee has distinct signers and a threshold of at least 2 and at most their number |
| `CommitteeTheorems.ErrorsAreTrue` | contracts/parameters-contract/src/lib.rs:43-195 | whatever error a governance call returns, what that error says is the case |
| `GovernanceProofs.ExecuteKeeps` | contracts/parameters-contract/src/lib.rs:234-259 | an execution with its sweep keeps every proposal, snapshot and committee invariant |
| `GovernanceProofs.ExecuteKeepsLog` | contracts/parameters-contract/src/lib.rs:160-195 | an execution appends a justified event of a proposal not executed before |
| `Governance.CheckCommittee` | contracts/parameters-contract/src/lib.rs:309-322 | the nested duplicate scan accepts exactly distinct signers with 2 <= threshold <= size |
| `Governance.CheckParameters` | contracts/parameters-contract/src/lib.rs:300-307 | accepts exactly a guarantee percentage in 1..100 with a positive large-loan threshold |
| `Governance.CheckApprovers` | contracts/parameters-contract/src/lib.rs:264-271 | the approver loop accepts exactly the proposals whose approvers are all in snapshot and committee |
| `Governance.ParametersContract.Configure` | contracts/parameters-contract/src/lib.rs:43-59 | the pending committee or the specified error |
| `Governance.ParametersContract.Confirm` | contracts/parameters-contract/src/lib.rs:63-79 | the confirmed committee or the specified error |
| `Governance.ParametersContract.Propose` | contracts/parameters-contract/src/lib.rs:85-125 | the stored proposal with its snapshot and expiry, or the specified error; returns its id |
| `Governance.ParametersContract.Approve` | contracts/parameters-contract/src/lib.rs:127-155 | the added approval or the specified error |
| `Governance.ParametersContract.InvalidateSignerProposals` | contracts/parameters-contract/src/lib.rs:244-259 | the loop over the listed ids voids exactly the other in-flight changes of signers |
| `Governance.ParametersContract.Execute` | contracts/parameters-contract/src/lib.rs:160-195 | validation, action, sweep and mark reach the specified state or error |
| `Governance.ParametersContract.Invoke` | contracts/parameters-contract/src/lib.rs:43-195 | one invocation is one step of the model, with rollback, so the object always holds a reachable state |
| `VouchingTheorems.AccountingIsExact` | contracts/vouching-contract/src/storage.rs:118-148 | a learner's total is the sum of its active boosts, each mentor counted once; the baseline is present exactly when some vouch is active |
| `VouchingTheorems.ScoreIsBaselinePlusTotal` | contracts/vouching-contract/src/lib.rs:69-89 | while only vouches change a learner's score it is the baseline plus the total, and the baseline stays put |
| `VouchingTheorems.EndingAllRestoresTheScore` | contracts/vouching-contract/src/lib.rs:256-274 | however vouches come and go, a learner whose last vouch has ended has the score it had before the first |
| `VouchingTheorems.EndingsAddUp` | contracts/vouching-contract/src/lib.rs:256-274 | ending any set of active vouches is never refused and leaves a state given by the set alone, the score lowered by their worth but not below the baseline |
| `VouchingTheorems.EndingIsOrderIndependent` | contracts/vouching-contract/src/lib.rs:95-147 | ending the same set of vouches in any order, each by revocation or by an expiry whose time has come, gives the same state |
| `VouchingTheorems.EndingKeepsTheFloor` | contracts/vouching-contract/src/lib.rs:261-265 | ending vouches never takes a score below min(score, baseline) and never raises it |
| `VouchingTheorems.VouchLastsThirtyDays` | contracts/vouching-contract/src/lib.rs:122-147 | unless its mentor revokes it, an accepted vouch stays as given and cannot be expired until 2,592,000 s have passed, whatever calls come in between; afterwards an expiry goes through and ends it |
| `VouchingTheorems.VouchAcceptedIff` | contracts/vouching-contract/src/lib.rs:50-93 | a vouch is accepted exactly from a verified mentor without an active vouch for the learner, if score plus boost is at most 100 (and the boosts fit 32 bits); it records boost and time and raises that score alone |
| `VouchingTheorems.EndingAcceptedIff` | contracts/vouching-contract/src/lib.rs:95-147 | a revocation is accepted exactly while the vouch is active, an expiry exactly if it is inactive or thirty days have passed |
| `VouchingTheorems.AdministratorDecidesOnMentors` | contracts/vouching-contract/src/lib.rs:38-48 | a mentor is verified exactly as the administrator last said in the run |
| `VouchingTheorems.ListingIsComplete` | contracts/vouching-contract/src/lib.rs:149-166 | readers see each mentor's record exactly once, shown active exactly when it is active and cannot be expired now |
| `VouchingTheorems.ListOnlyGrows` | contracts/vouching-contract/src/storage.rs:90-98 | the mentor list only ever grows at its end |
| `VouchingTheorems.ErrorsAreTrue` | contracts/vouching-contract/src/lib.rs:50-147 | whatever error a vouch, revocation or expiry returns, what that error says is the case |
| `VouchingProofs.VouchKeeps` | contracts/vouching-contract/src/lib.rs:50-93 | an accepted vouch keeps totals, baselines and lists in agreement with the records |
| `VouchingProofs.EndVouchKeeps` | contracts/vouching-contract/src/lib.rs:256-274 | ending an active vouch is never refused, lowers the total by exactly its boost and keeps the agreement |
| `Vouching.VouchingContract.Vouch` | contracts/vouching-contract/src/lib.rs:50-93 | the recorded vouch, list, baseline, total and score, or the specified error |
| `Vouching.VouchingContract.Revoke` | contracts/vouching-contract/src/lib.rs:95-112 | the ended vouch or the specified error |
| `Vouching.VouchingContract.Expire` | contracts/vouching-contract/src/lib.rs:122-147 | the expired vouch, nothing for an inactive one, or the specified error |
| `Vouching.VouchingContract.RemoveBoostClamped` | contracts/vouching-contract/src/lib.rs:256-274 | the clamped removal reaches the specified score, total and baseline |
| `Vouching.VouchingContract.AddLearnerMentor` | contracts/vouching-contract/src/storage.rs:90-98 | appends the mentor unless it is listed |
| `Vouching.VouchingContract.GetVouches` | contracts/vouching-contract/src/lib.rs:149-166 | the loop returns the learner's listing |
| `Vouching.VouchingContract.Invoke` | contracts/vouching-contract/src/lib.rs:38-147 | one invocation is one step of the model, with rollback, so the object always holds a reachable ledger |

## Left out

- Authorization entries, token-transfer authorizations, storage lifetimes and loan shards: host mechanics. The caller's
  identity is taken as given; contracts do not sign entry points on their own behalf.
- Pause flags and the reentrancy lock: one-line guards. With rollback the lock is free between calls.
- Events, error numbering, versions of the lending contracts, WASM upgrades and their timelock: one-branch bookkeeping.
- Re-pointing token, pool, credit line, reputation, treasury or merchant fund: the addresses are fixed for a run.
- The vendor registry and the parameter fetch with its fallback: their answers are inputs of the call.
- `warn_grace_period` and the plain getters: they change nothing.
- `accumulate_interest`: an alias of `distribute_interest`. The credit line calls neither, so runs contain neither.
- The legacy index entries `UserLoanAt`: the index starts empty, and a missing page is reported as a missing loan.
- Vec and u32 limits on schedules, signers and approvals: sequences are unbounded.
- IndexTheorems.IndexListsLoans: up to 2^37 loans of the borrower, past which its page numbers wrap.
- PoolProofs.DepositWithdrawRoundTrip: the provider is not the pool itself, which cannot sign.
- ProtocolTheorems.EscrowIsConserved: for fee recipients and vendors other than the credit line itself, whose balance
  such a payment would raise.
- GuaranteeTheorems.GuaranteeIsPaidOutOnce: for the same runs, since a gift cannot be told from a guarantee.
- AcceptanceTheorems.RepaymentAcceptedIff: for balances, liquidity, debt and balance due of at most 2^96, so that no
  128-bit computation overflows; beyond that a call may also be rejected for an overflow.
- AcceptanceTheorems.InstallmentAcceptedIff: under the same bounds.
- AcceptanceTheorems.DefaultAcceptedIff: under the same bounds.
- ExitTheorems.NobodyIsRefused: under the same bounds.
- ExitTheorems.EveryoneCanLeave: for liquidity and the leaving providers' balances of at most 2^96, for the same reason,
  and for providers other than the two contracts, which cannot sign.
- TermsTheorems.CreationAcceptedIff: under the same bounds, for a guarantee percentage that governance lets through, and
  while ids are left.
- TermsTheorems.RequestAcceptedIff: under the same conditions.
- TermsTheorems.ApprovalAcceptedIff: under the same bounds.
- TermsTheorems.FundingAcceptedIff: under the same bounds.
- TermsTheorems.CancellationAcceptedIff: under the same bounds.
- ServicingTheorems.LateFeesAcceptedIff: under the same bounds.
- PoolTheorems.DepositAcceptedIff: under the same bounds, with at most 2^96 * 10,000 shares in issue.
- PoolTheorems.WithdrawalAcceptedIff: under the same bounds, for providers other than the pool itself.
- VouchingTheorems.EndingAcceptedIff: for a clock of at most 2^64 - 1, which is what the host has.
- RepaymentTheorems.OnceIsAccepted: under the same bounds on amounts.
- Governance.ParametersContract.constructor: invalid initial parameters are excluded by its precondition, since a
  constructor returns no error.
- CreditLine.CreditLineContract.UserLoans: takes the sequence the index stands for as a ghost argument.
- Entry points of the classes say nothing about the fields after an error; the invoking host restores them.
