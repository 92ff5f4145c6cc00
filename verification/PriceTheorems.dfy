/** The share price and the providers' claims over whole runs. */
module PriceTheorems {
  import opened Common
  import opened Arithmetic
  import opened LoanModel
  import opened ProtocolModel
  import opened ProtocolProofs
  import opened ProtocolRuns
  import P = PoolModel
  import PP = PoolProofs

  /** An accepted default that costs the pool more than it recovers. */
  predicate AbsorbsLoss(w: World, op: Op) {
    && op.CallMarkDefaulted? && Step(w, op).Ok? && op.id in w.book.loans
    && Min(w.book.loans[op.id].guarantee, w.vault.pool.lockedLiquidity) < Shortfall(w.book.loans[op.id])
    && w.vault.pool.totalLiquidity > 0
  }

  /** These are exactly the calls on the loan book after which the pool counts less liquidity. */
  lemma DefaultLowersLiquidityIff(w: World, id: nat, params: Params)
    requires WorldOk(w) && MarkDefaulted(w, id, params).Ok?
    ensures MarkDefaulted(w, id, params).value.vault.pool.totalLiquidity < w.vault.pool.totalLiquidity
       <==> AbsorbsLoss(w, CallMarkDefaulted(id, params))
    ensures MarkDefaulted(w, id, params).value.vault.pool.totalShares == w.vault.pool.totalShares
  {
    hide MarkDefaulted, Forfeit, WriteOff;
    DefaultParts(w, id, params, MarkDefaulted(w, id, params).value);
    LoanIsOk(w, id);
    ForfeitEffect(w.setup, w.vault, w.book.loans[id]);
  }

  lemma LendingKeepsShares(w: World, op: Op)
    requires WorldOk(w) && Step(w, op).Ok? && !AbsorbsLoss(w, op)
    requires !op.CallDeposit? && !op.CallWithdraw?
    ensures
      var p, p' := w.vault.pool, Step(w, op).value.vault.pool;
      p'.totalShares == p.totalShares && p.totalLiquidity <= p'.totalLiquidity
  {
    match op
    case CallCreateLoan(user, vendor, total, guarantee, schedule, loanType, ctx) =>
      CreateFollows(w, user, vendor, total, guarantee, schedule, loanType, ctx);
    case CallRequestLoan(user, vendor, total, guarantee, schedule, loanType, ctx) =>
      RequestFollows(w, user, vendor, total, guarantee, schedule, loanType, ctx);
    case CallApproveLoan(caller, id, ctx) => ApproveFollows(w, caller, id, ctx);
    case CallCancelLoan(caller, id) => CancelFollows(w, caller, id);
    case CallRepayLoan(borrower, id, amount) => RepayFollows(w, borrower, id, amount);
    case CallRepayInstallment(borrower, id, i, amount) => InstallmentFollows(w, borrower, id, i, amount);
    case CallApplyLateFees(id) => LateFeesFollow(w, id);
    case CallMarkDefaulted(id, params) => DefaultLowersLiquidityIff(w, id, params);
    case CallSetOutflowCap(_) => CapsFollow(w, op);
    case CallSetExposureCap(_) => CapsFollow(w, op);
    case _ => OutsideFollows(w, op);
  }

  /** No call lowers the price, except a default that costs the pool more than it recovers. */
  lemma ApplyKeepsPrice(w: World, op: Op)
    requires WorldOk(w) && !AbsorbsLoss(w, op)
    ensures 0 <= w.vault.pool.totalShares && 0 <= Apply(w, op).vault.pool.totalShares
    ensures PP.Quote(w.vault.pool) <= PP.Quote(Apply(w, op).vault.pool)
  {
    PP.SharesNonNegative(w.vault.pool);
    if Step(w, op).Ok? {
      if op.CallDeposit? {
        PP.DepositKeepsPrice(w.setup, w.vault, op.provider, op.amount);
      } else if op.CallWithdraw? {
        PP.WithdrawKeepsPrice(w.setup, w.vault, op.provider, op.shares);
      } else {
        LendingKeepsShares(w, op);
        PP.LiquidityMovesPrice(w.vault.pool, Step(w, op).value.vault.pool);
      }
    }
  }

  /** None of the calls of a run makes the pool absorb a loss. */
  predicate Lossless(w: World, ops: seq<Op>) {
    ops == [] || (Lossless(w, ops[..|ops| - 1]) && !AbsorbsLoss(Run(w, ops[..|ops| - 1]), ops[|ops| - 1]))
  }

  /** Over any run without an absorbed loss, the quoted share price never falls. */
  lemma {:induction false} PriceNeverFalls(w: World, ops: seq<Op>)
    requires AllOk(w) && Lossless(w, ops)
    ensures 0 <= w.vault.pool.totalShares && 0 <= Run(w, ops).vault.pool.totalShares
    ensures PP.Quote(w.vault.pool) <= PP.Quote(Run(w, ops).vault.pool)
  {
    PP.SharesNonNegative(w.vault.pool);
    if ops != [] {
      var front := ops[..|ops| - 1];
      PriceNeverFalls(w, front);
      RunFollows(w, front);
      ApplyKeepsPrice(Run(w, front), ops[|ops| - 1]);
    }
  }

  /** In every reachable pool that has shares: they are the 1000 dead ones and the providers';
      and at or above par all claims together are covered by the liquidity. */
  lemma ClaimsAreCovered(w: World)
    requires Reachable(w) && w.vault.pool.totalShares != 0
    ensures
      var p := w.vault.pool;
      && p.totalShares == P.DEAD_SHARES + SumOf(p.lpShares) && p.totalShares >= P.DEAD_SHARES
      && var claims := SumOf(PP.Claims(p.lpShares, PP.Quote(p)));
      && (PP.Quote(p) >= P.PRECISION ==> claims <= p.totalLiquidity)
      && (p.totalShares <= (p.totalLiquidity + P.DEAD_SHARES) * P.PRECISION ==>
            claims * P.PRECISION <= (p.totalLiquidity + P.DEAD_SHARES) * P.PRECISION - P.DEAD_SHARES * PP.Quote(p))
  {
    ReachableOk(w);
    PP.SharesNonNegative(w.vault.pool);
    PP.ClaimsCovered(w.vault.pool);
  }
}
