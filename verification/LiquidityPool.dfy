/** The liquidity pool contract: the object whose storage the entry points update in place. */
module LiquidityPool {
  import opened Common
  import opened Token
  import opened PoolModel

  class PoolContract {
    const setup: Setup
    const token: TokenContract

    var totalShares: int
    var totalLiquidity: int
    var lockedLiquidity: int
    var lpShares: map<Address, int>
    var outflowCapBps: nat
    var exposureCap: int
    var windowLedger: nat
    var windowUsed: int
    var merchantFunded: map<Address, int>
    var fundings: seq<Funding>

    /** The stored fields as one value. */
    function Stored(): Pool
      reads this
    {
      Pool(totalShares, totalLiquidity, lockedLiquidity, lpShares, outflowCapBps, exposureCap,
           windowLedger, windowUsed, merchantFunded, fundings)
    }

    function State(): Vault
      reads this, token
    {
      Vault(Stored(), token.balances)
    }

    constructor (setup: Setup, token: TokenContract)
      ensures this.setup == setup && this.token == token
      ensures Stored() == EMPTY_POOL
    {
      this.setup := setup;
      this.token := token;
      totalShares, totalLiquidity, lockedLiquidity, lpShares := 0, 0, 0, map[];
      outflowCapBps, exposureCap, windowLedger, windowUsed := 0, 0, 0, 0;
      merchantFunded, fundings := map[], [];
    }

    /** The host's rollback: puts back the storage a failed call found. */
    method Restore(p: Pool)
      modifies this
      ensures Stored() == p
    {
      totalShares, totalLiquidity, lockedLiquidity, lpShares :=
        p.totalShares, p.totalLiquidity, p.lockedLiquidity, p.lpShares;
      outflowCapBps, exposureCap, windowLedger, windowUsed :=
        p.outflowCapBps, p.exposureCap, p.windowLedger, p.windowUsed;
      merchantFunded, fundings := p.merchantFunded, p.fundings;
    }

    method QuotePrice() returns (r: Result<int>)
      ensures r == SharePrice(Stored())
    {
      if totalShares == 0 {
        return Ok(PRECISION);
      }
      var effective :- AddI128(totalLiquidity, DEAD_SHARES);
      var scaled :- MulI128(effective, PRECISION);
      var price := TruncDiv(scaled, totalShares);
      r := Ok(if price == 0 then 1 else price);
    }

    method Deposit(provider: Address, amount: int) returns (r: Result<int>)
      modifies this, token
      ensures
        var s := PoolModel.Deposit(setup, old(State()), provider, amount);
        && r == (if s.Ok? then Ok(s.value.1) else Err(s.error))
        && (s.Ok? ==> State() == s.value.0)
    {
      var _ :- Need(amount >= MIN_AMOUNT, InvalidAmount);
      if totalShares == 0 {
        totalShares := DEAD_SHARES;
      }
      var price :- QuotePrice();
      var scaled :- MulI128(amount, PRECISION);
      var issued := TruncDiv(scaled, price);
      var _ :- Need(issued > 0, InvalidAmount);
      var held :- AddI128(GetOr(lpShares, provider, 0), issued);
      lpShares := lpShares[provider := held];
      totalShares :- AddI128(totalShares, issued);
      totalLiquidity :- AddI128(totalLiquidity, amount);
      var _ :- token.Send(provider, setup.pool, amount);
      r := Ok(issued);
    }

    method Withdraw(provider: Address, shares: int) returns (r: Result<int>)
      modifies this, token
      ensures
        var s := PoolModel.Withdraw(setup, old(State()), provider, shares);
        && r == (if s.Ok? then Ok(s.value.1) else Err(s.error))
        && (s.Ok? ==> State() == s.value.0)
    {
      var _ :- Need(shares > 0, InvalidAmount);
      var held := GetOr(lpShares, provider, 0);
      var _ :- Need(held >= shares, InsufficientShares);
      var price :- QuotePrice();
      var scaled :- MulI128(shares, price);
      var returned := TruncDiv(scaled, PRECISION);
      var _ :- Need(returned <= totalLiquidity - lockedLiquidity, InsufficientLiquidity);
      lpShares := lpShares[provider := held - shares];
      totalShares := totalShares - shares;
      totalLiquidity := totalLiquidity - returned;
      var _ :- token.Send(setup.pool, provider, returned);
      r := Ok(returned);
    }

    /** Counts an outflow in the window of its ledger; a new ledger starts from nothing. */
    method CountOutflow(ledger: nat, amount: int, available: int) returns (r: Result<()>)
      requires available == totalLiquidity - lockedLiquidity
      modifies `windowLedger, `windowUsed
      ensures
        var s := AdvanceWindow(old(Stored()), ledger, amount);
        && r == (if s.Ok? then Ok(()) else Err(s.error))
        && (s.Ok? ==> Stored() == s.value)
    {
      if outflowCapBps > 0 {
        var cap :- OutflowCap(available, outflowCapBps);
        var used := windowUsed;
        if windowLedger != ledger {
          used := 0;
        }
        var newUsed :- AddI128(used, amount);
        var _ :- Need(newUsed <= cap, OutflowCapExceeded);
        windowLedger, windowUsed := ledger, newUsed;
      }
      r := Ok(());
    }

    method FundLoan(ledger: nat, merchant: Address, amount: int, vendorOk: bool) returns (r: Result<()>)
      modifies this, token
      ensures
        var s := PoolModel.FundLoan(setup, old(State()), ledger, merchant, amount, vendorOk);
        && r == (if s.Ok? then Ok(()) else Err(s.error))
        && (s.Ok? ==> State() == s.value)
    {
      hide AdvanceWindow;
      var _ :- Need(amount > 0, InvalidAmount);
      var _ :- Need(vendorOk, VendorNotActive);
      var available := totalLiquidity - lockedLiquidity;
      var _ :- Need(amount <= available, InsufficientLiquidity);
      var _ :- CountOutflow(ledger, amount, available);
      var funded :- AddI128(GetOr(merchantFunded, merchant, 0), amount);
      if exposureCap > 0 {
        var _ :- Need(funded <= exposureCap, MerchantExposureCapExceeded);
      }
      merchantFunded := merchantFunded[merchant := funded];
      lockedLiquidity :- AddI128(lockedLiquidity, amount);
      var _ :- token.Send(setup.pool, merchant, amount);
      fundings := fundings + [Funding(ledger, merchant, amount, outflowCapBps, available)];
      r := Ok(());
    }

    method SplitInterest(interest: int) returns (r: Result<()>)
      modifies this, token
      ensures
        var s := PoolModel.SplitInterest(setup, old(State()), interest);
        && r == (if s.Ok? then Ok(()) else Err(s.error))
        && (s.Ok? ==> State() == s.value)
    {
      var _ :- Need(interest > 0, InvalidAmount);
      var lpScaled :- MulI128(interest, LP_FEE_BPS);
      var lpAmount := TruncDiv(lpScaled, TOTAL_BPS);
      var protocolScaled :- MulI128(interest, PROTOCOL_FEE_BPS);
      var protocolAmount := TruncDiv(protocolScaled, TOTAL_BPS);
      var merchantAmount := interest - lpAmount - protocolAmount;
      if protocolAmount > 0 && setup.treasury.Some? {
        var _ :- token.Send(setup.pool, setup.treasury.value, protocolAmount);
      }
      if merchantAmount > 0 && setup.merchantFund.Some? {
        var _ :- token.Send(setup.pool, setup.merchantFund.value, merchantAmount);
      }
      totalLiquidity :- AddI128(totalLiquidity, lpAmount);
      r := Ok(());
    }

    method DistributeInterest(interest: int) returns (r: Result<()>)
      modifies this, token
      ensures
        var s := PoolModel.DistributeInterest(setup, old(State()), interest);
        && r == (if s.Ok? then Ok(()) else Err(s.error))
        && (s.Ok? ==> State() == s.value)
    {
      var _ :- token.Send(setup.credit, setup.pool, interest);
      r := SplitInterest(interest);
    }

    method ReceiveRepayment(principal: int, interest: int) returns (r: Result<()>)
      modifies this, token
      ensures
        var s := PoolModel.ReceiveRepayment(setup, old(State()), principal, interest);
        && r == (if s.Ok? then Ok(()) else Err(s.error))
        && (s.Ok? ==> State() == s.value)
    {
      var _ :- Need(principal >= 0 && interest >= 0, InvalidAmount);
      var total :- AddI128(principal, interest);
      var _ :- Need(total > 0, InvalidAmount);
      var unlocked :- SubI128(lockedLiquidity, principal);
      lockedLiquidity := Max(0, unlocked);
      var _ :- token.Send(setup.credit, setup.pool, total);
      if interest > 0 {
        var _ :- SplitInterest(interest);
      }
      r := Ok(());
    }

    method ReceiveGuarantee(amount: int) returns (r: Result<()>)
      modifies this, token
      ensures
        var s := PoolModel.ReceiveGuarantee(setup, old(State()), amount);
        && r == (if s.Ok? then Ok(()) else Err(s.error))
        && (s.Ok? ==> State() == s.value)
    {
      var _ :- Need(amount > 0, InvalidAmount);
      var recovered := Min(amount, lockedLiquidity);
      lockedLiquidity := lockedLiquidity - recovered;
      totalLiquidity :- AddI128(totalLiquidity, recovered);
      var _ :- token.Send(setup.credit, setup.pool, amount);
      r := Ok(());
    }

    method AbsorbLoss(shortfall: int) returns (r: Result<()>)
      modifies this
      ensures
        var s := PoolModel.AbsorbLoss(old(State()), shortfall);
        && r == (if s.Ok? then Ok(()) else Err(s.error))
        && (s.Ok? ==> State() == s.value)
    {
      var _ :- Need(shortfall > 0, InvalidAmount);
      var lockedReduction := Min(shortfall, lockedLiquidity);
      var totalReduction := Min(shortfall, totalLiquidity);
      lockedLiquidity := lockedLiquidity - lockedReduction;
      totalLiquidity := totalLiquidity - totalReduction;
      r := Ok(());
    }

    method SetOutflowCap(bps: nat) returns (r: Result<()>)
      modifies this
      ensures
        var s := PoolModel.SetOutflowCap(old(State()), bps);
        && r == (if s.Ok? then Ok(()) else Err(s.error))
        && (s.Ok? ==> State() == s.value)
    {
      var _ :- Need(bps <= TOTAL_BPS, InvalidCap);
      outflowCapBps := bps;
      r := Ok(());
    }

    method SetExposureCap(amount: int) returns (r: Result<()>)
      modifies this
      ensures
        var s := PoolModel.SetExposureCap(old(State()), amount);
        && r == (if s.Ok? then Ok(()) else Err(s.error))
        && (s.Ok? ==> State() == s.value)
    {
      var _ :- Need(amount >= 0, InvalidCap);
      exposureCap := amount;
      r := Ok(());
    }
  }
}
