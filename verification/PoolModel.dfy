/** The liquidity pool as a state machine on values: what each entry point accepts and the state
    it leaves. `LiquidityPool.dfy` holds the contract object proved against it. */
module PoolModel {
  import opened Common
  import opened Token

  const LP_FEE_BPS := 8_500
  const PROTOCOL_FEE_BPS := 1_000
  const TOTAL_BPS := 10_000
  const PRECISION := 10_000
  const MIN_AMOUNT := 1_000
  const DEAD_SHARES := 1_000

  /** The addresses the pool talks to. They are fixed for a run. */
  datatype Setup = Setup(pool: Address, credit: Address,
                         treasury: Option<Address>, merchantFund: Option<Address>)

  /** One `fund_loan` as the pool's funding event reports it: the ledger it happened in, the cap
      then configured and the liquidity available just before it. */
  datatype Funding = Funding(ledger: nat, merchant: Address, amount: int, capBps: nat, available: int)

  datatype Pool = Pool(
    totalShares: int, totalLiquidity: int, lockedLiquidity: int, lpShares: map<Address, int>,
    outflowCapBps: nat, exposureCap: int, windowLedger: nat, windowUsed: int,
    merchantFunded: map<Address, int>, fundings: seq<Funding>)

  /** The pool together with the token balances it moves. */
  datatype Vault = Vault(pool: Pool, bal: Balances)

  const EMPTY_POOL := Pool(0, 0, 0, map[], 0, 0, 0, 0, map[], [])

  function Available(p: Pool): int {
    p.totalLiquidity - p.lockedLiquidity
  }

  function Shares(p: Pool, a: Address): int {
    GetOr(p.lpShares, a, 0)
  }

  function Funded(p: Pool, merchant: Address): int {
    GetOr(p.merchantFunded, merchant, 0)
  }

  // ---------------------------------------------------------------- pricing

  /** Share price in units of 1/10000; an empty pool quotes par and no pool quotes 0. */
  function SharePrice(p: Pool): (r: Result<int>)
    ensures r.Ok? ==> r.value != 0
  {
    if p.totalShares == 0 then Ok(PRECISION)
    else
      var effective :- AddI128(p.totalLiquidity, DEAD_SHARES);
      var scaled :- MulI128(effective, PRECISION);
      var price := TruncDiv(scaled, p.totalShares);
      Ok(if price == 0 then 1 else price)
  }

  // ---------------------------------------------------------------- liquidity providers

  function Deposit(c: Setup, v: Vault, provider: Address, amount: int): Result<(Vault, int)> {
    var _ :- Need(amount >= MIN_AMOUNT, InvalidAmount);
    var p := if v.pool.totalShares == 0 then v.pool.(totalShares := DEAD_SHARES) else v.pool;
    var price :- SharePrice(p);
    var scaled :- MulI128(amount, PRECISION);
    var issued := TruncDiv(scaled, price);
    var _ :- Need(issued > 0, InvalidAmount);
    var held :- AddI128(Shares(p, provider), issued);
    var shares :- AddI128(p.totalShares, issued);
    var liquidity :- AddI128(p.totalLiquidity, amount);
    var bal :- Transfer(v.bal, provider, c.pool, amount);
    Ok((Vault(p.(lpShares := p.lpShares[provider := held], totalShares := shares, totalLiquidity := liquidity), bal),
        issued))
  }

  function Withdraw(c: Setup, v: Vault, provider: Address, shares: int): Result<(Vault, int)> {
    var p := v.pool;
    var _ :- Need(shares > 0, InvalidAmount);
    var _ :- Need(Shares(p, provider) >= shares, InsufficientShares);
    var price :- SharePrice(p);
    var scaled :- MulI128(shares, price);
    var returned := TruncDiv(scaled, PRECISION);
    var _ :- Need(returned <= Available(p), InsufficientLiquidity);
    var bal :- Transfer(v.bal, c.pool, provider, returned);
    Ok((Vault(p.(lpShares := p.lpShares[provider := Shares(p, provider) - shares],
                 totalShares := p.totalShares - shares,
                 totalLiquidity := p.totalLiquidity - returned), bal),
        returned))
  }

  // ---------------------------------------------------------------- credit line

  /** The most that may flow out in one ledger, given the liquidity available. */
  function OutflowCap(available: int, bps: nat): Result<int> {
    var scaled :- MulI128(available, bps);
    Ok(TruncDiv(scaled, TOTAL_BPS))
  }

  /** What the window counts as already used in ledger `ledger`. */
  function UsedIn(p: Pool, ledger: nat): int {
    if p.windowLedger == ledger then p.windowUsed else 0
  }

  function AdvanceWindow(p: Pool, ledger: nat, amount: int): Result<Pool> {
    if p.outflowCapBps == 0 then Ok(p)
    else
      var cap :- OutflowCap(Available(p), p.outflowCapBps);
      var used :- AddI128(UsedIn(p, ledger), amount);
      var _ :- Need(used <= cap, OutflowCapExceeded);
      Ok(p.(windowLedger := ledger, windowUsed := used))
  }

  /** `vendorOk`: no vendor registry is configured, or it reports the merchant active. */
  function FundLoan(c: Setup, v: Vault, ledger: nat, merchant: Address, amount: int, vendorOk: bool): Result<Vault> {
    var _ :- Need(amount > 0, InvalidAmount);
    var _ :- Need(vendorOk, VendorNotActive);
    var _ :- Need(amount <= Available(v.pool), InsufficientLiquidity);
    var p :- AdvanceWindow(v.pool, ledger, amount);
    var funded :- AddI128(Funded(p, merchant), amount);
    var _ :- Need(p.exposureCap <= 0 || funded <= p.exposureCap, MerchantExposureCapExceeded);
    var locked :- AddI128(p.lockedLiquidity, amount);
    var bal :- Transfer(v.bal, c.pool, merchant, amount);
    var event := Funding(ledger, merchant, amount, p.outflowCapBps, Available(v.pool));
    Ok(Vault(p.(merchantFunded := p.merchantFunded[merchant := funded], lockedLiquidity := locked,
                fundings := p.fundings + [event]), bal))
  }

  /** Pays `amount` out of the pool to `to`, when there is such an address. */
  function PayFee(c: Setup, bal: Balances, to: Option<Address>, amount: int): Result<Balances> {
    if amount > 0 && to.Some? then Transfer(bal, c.pool, to.value, amount) else Ok(bal)
  }

  function LpCut(interest: int): int {
    TruncDiv(interest * LP_FEE_BPS, TOTAL_BPS)
  }

  function ProtocolCut(interest: int): int {
    TruncDiv(interest * PROTOCOL_FEE_BPS, TOTAL_BPS)
  }

  function SplitInterest(c: Setup, v: Vault, interest: int): Result<Vault> {
    var _ :- Need(interest > 0, InvalidAmount);
    var _ :- MulI128(interest, LP_FEE_BPS);
    var _ :- MulI128(interest, PROTOCOL_FEE_BPS);
    var afterTreasury :- PayFee(c, v.bal, c.treasury, ProtocolCut(interest));
    var bal :- PayFee(c, afterTreasury, c.merchantFund, interest - LpCut(interest) - ProtocolCut(interest));
    var liquidity :- AddI128(v.pool.totalLiquidity, LpCut(interest));
    Ok(Vault(v.pool.(totalLiquidity := liquidity), bal))
  }

  function DistributeInterest(c: Setup, v: Vault, interest: int): Result<Vault> {
    var bal :- Transfer(v.bal, c.credit, c.pool, interest);
    SplitInterest(c, v.(bal := bal), interest)
  }

  function ReceiveRepayment(c: Setup, v: Vault, principal: int, interest: int): Result<Vault> {
    var _ :- Need(principal >= 0 && interest >= 0, InvalidAmount);
    var total :- AddI128(principal, interest);
    var _ :- Need(total > 0, InvalidAmount);
    var unlocked :- SubI128(v.pool.lockedLiquidity, principal);
    var bal :- Transfer(v.bal, c.credit, c.pool, total);
    var v' := Vault(v.pool.(lockedLiquidity := Max(0, unlocked)), bal);
    if interest > 0 then SplitInterest(c, v', interest) else Ok(v')
  }

  function ReceiveGuarantee(c: Setup, v: Vault, amount: int): Result<Vault> {
    var _ :- Need(amount > 0, InvalidAmount);
    var recovered := Min(amount, v.pool.lockedLiquidity);
    var liquidity :- AddI128(v.pool.totalLiquidity, recovered);
    var bal :- Transfer(v.bal, c.credit, c.pool, amount);
    Ok(Vault(v.pool.(lockedLiquidity := v.pool.lockedLiquidity - recovered, totalLiquidity := liquidity), bal))
  }

  function AbsorbLoss(v: Vault, shortfall: int): Result<Vault> {
    var _ :- Need(shortfall > 0, InvalidAmount);
    Ok(v.(pool := v.pool.(
         lockedLiquidity := v.pool.lockedLiquidity - Min(shortfall, v.pool.lockedLiquidity),
         totalLiquidity := v.pool.totalLiquidity - Min(shortfall, v.pool.totalLiquidity))))
  }

  // ---------------------------------------------------------------- administration

  function SetOutflowCap(v: Vault, bps: nat): Result<Vault> {
    var _ :- Need(bps <= TOTAL_BPS, InvalidCap);
    Ok(v.(pool := v.pool.(outflowCapBps := bps)))
  }

  function SetExposureCap(v: Vault, amount: int): Result<Vault> {
    var _ :- Need(amount >= 0, InvalidCap);
    Ok(v.(pool := v.pool.(exposureCap := amount)))
  }
}
