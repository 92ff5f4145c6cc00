/** What the pool's accounting promises its liquidity providers, step by step: the share ledger,
    the share price, the deposit round trip and the bound on everybody's claims together. */
module PoolProofs {
  import opened Common
  import opened Arithmetic
  import opened Token
  import opened PoolModel

  /** Dead shares are in the total from the first deposit on, nobody's shares are negative, and no
      more is locked than there is. */
  ghost predicate PoolOk(p: Pool) {
    && 0 <= p.lockedLiquidity <= p.totalLiquidity
    && (forall a :: a in p.lpShares ==> 0 <= p.lpShares[a])
    && if p.totalShares == 0 then p.lpShares == map[]
       else p.totalShares == DEAD_SHARES + SumOf(p.lpShares)
  }

  /** The price the pool quotes, without the fixed-width limits. */
  function Quote(p: Pool): int
    requires 0 <= p.totalShares
  {
    if p.totalShares == 0 then PRECISION
    else Max(1, (p.totalLiquidity + DEAD_SHARES) * PRECISION / p.totalShares)
  }

  lemma SharesNonNegative(p: Pool)
    requires PoolOk(p)
    ensures 0 <= p.totalShares
    ensures p.totalShares != 0 ==> DEAD_SHARES <= p.totalShares
    ensures forall a :: 0 <= Shares(p, a)
    ensures forall a :: p.totalShares != 0 ==> Shares(p, a) + DEAD_SHARES <= p.totalShares
  {
    SumNonNegative(p.lpShares);
  }

  lemma SharePriceIsQuote(p: Pool)
    requires PoolOk(p) && SharePrice(p).Ok?
    ensures 0 <= p.totalShares && SharePrice(p).value == Quote(p) >= 1
  {
    SharesNonNegative(p);
  }

  /** The pool as a deposit sees it: the first one seeds the dead shares. */
  function Seeded(p: Pool): Pool {
    if p.totalShares == 0 then p.(totalShares := DEAD_SHARES) else p
  }

  // ---------------------------------------------------------------- price arithmetic

  /** A price never overstates the value per share, unless it is clamped to 1. */
  predicate PriceOf(price: int, liquidity: int, shares: int)
    requires shares > 0
  {
    price == Max(1, (liquidity + DEAD_SHARES) * PRECISION / shares)
  }

  lemma PriceBracket(price: int, liquidity: int, shares: int)
    requires shares > 0 && liquidity >= 0 && PriceOf(price, liquidity, shares)
    ensures price >= 1
    ensures price > 1 ==> price * shares <= (liquidity + DEAD_SHARES) * PRECISION
    ensures (liquidity + DEAD_SHARES) * PRECISION < (price + 1) * shares
  {
    var x := (liquidity + DEAD_SHARES) * PRECISION;
    FloorBounds(x, shares);
    MulMono(x / shares + 1, price + 1, shares);
  }

  /** Adding value at no less than the old price per share keeps the price. */
  lemma PriceRises(price: int, liquidity: int, shares: int, liquidity': int, shares': int, price': int)
    requires shares > 0 && shares' > 0 && liquidity >= 0 && liquidity' >= 0
    requires PriceOf(price, liquidity, shares) && PriceOf(price', liquidity', shares')
    requires price * (shares' - shares) <= (liquidity' - liquidity) * PRECISION
    ensures price <= price'
  {
    PriceBracket(price, liquidity, shares);
    if price > 1 {
      assert price * shares' == price * shares + price * (shares' - shares);
      FloorAtLeast((liquidity' + DEAD_SHARES) * PRECISION, shares', price);
    }
  }

  // ---------------------------------------------------------------- deposit and withdraw

  lemma DepositEffect(c: Setup, v: Vault, provider: Address, amount: int)
    requires PoolOk(v.pool) && Deposit(c, v, provider, amount).Ok?
    ensures
      var (v', issued) := Deposit(c, v, provider, amount).value;
      var p := Seeded(v.pool);
      && PoolOk(v'.pool) && PoolOk(p) && DEAD_SHARES <= p.totalShares
      && MIN_AMOUNT <= amount && 0 < issued == amount * PRECISION / Quote(p)
      && v'.pool.totalLiquidity == p.totalLiquidity + amount
      && v'.pool.totalShares == p.totalShares + issued
      && Shares(v'.pool, provider) == Shares(p, provider) + issued
      && (forall a :: a != provider ==> Shares(v'.pool, a) == Shares(p, a))
      && v'.pool.lockedLiquidity == p.lockedLiquidity
      && Transfer(v.bal, provider, c.pool, amount) == Ok(v'.bal)
  {
    var p := Seeded(v.pool);
    SumNonNegative(map[]);
    SharePriceIsQuote(p);
    var (v', issued) := Deposit(c, v, provider, amount).value;
    assert issued == amount * PRECISION / Quote(p);
    SharesNonNegative(p);
    SumUpdate(p.lpShares, provider, Shares(p, provider) + issued);
  }

  /** A deposit never lowers the price the pool quotes. */
  lemma DepositKeepsPrice(c: Setup, v: Vault, provider: Address, amount: int)
    requires PoolOk(v.pool) && Deposit(c, v, provider, amount).Ok?
    ensures
      var p' := Deposit(c, v, provider, amount).value.0.pool;
      && 0 <= v.pool.totalShares && 0 <= p'.totalShares
      && Quote(v.pool) <= Quote(Seeded(v.pool)) <= Quote(p')
  {
    DepositEffect(c, v, provider, amount);
    SharesNonNegative(v.pool);
    var p := Seeded(v.pool);
    var (v', issued) := Deposit(c, v, provider, amount).value;
    FloorBounds(amount * PRECISION, Quote(p));
    PriceRises(Quote(p), p.totalLiquidity, p.totalShares,
               v'.pool.totalLiquidity, v'.pool.totalShares, Quote(v'.pool));
  }

  lemma WithdrawEffect(c: Setup, v: Vault, provider: Address, shares: int)
    requires PoolOk(v.pool) && Withdraw(c, v, provider, shares).Ok?
    ensures
      var (v', returned) := Withdraw(c, v, provider, shares).value;
      && PoolOk(v'.pool)
      && 0 < shares <= Shares(v.pool, provider)
      && DEAD_SHARES <= v'.pool.totalShares == v.pool.totalShares - shares
      && 0 <= returned == shares * Quote(v.pool) / PRECISION
      && returned <= Available(v.pool)
      && v'.pool.totalLiquidity == v.pool.totalLiquidity - returned
      && v'.pool.lockedLiquidity == v.pool.lockedLiquidity
      && Shares(v'.pool, provider) == Shares(v.pool, provider) - shares
      && (forall a :: a != provider ==> Shares(v'.pool, a) == Shares(v.pool, a))
      && Transfer(v.bal, c.pool, provider, returned) == Ok(v'.bal)
  {
    SharePriceIsQuote(v.pool);
    SharesNonNegative(v.pool);
    SumUpdate(v.pool.lpShares, provider, Shares(v.pool, provider) - shares);
  }

  lemma WithdrawPrice(price: int, liquidity: int, total: int, shares: int, returned: int, price': int)
    requires 0 < shares < total && 0 <= returned <= liquidity
    requires PriceOf(price, liquidity, total) && PriceOf(price', liquidity - returned, total - shares)
    requires returned == shares * price / PRECISION
    ensures price <= price'
  {
    FloorBounds(shares * price, PRECISION);
    assert price * ((total - shares) - total) == -(shares * price);
    PriceRises(price, liquidity, total, liquidity - returned, total - shares, price');
  }

  /** A withdrawal never lowers the price for those who stay. */
  lemma WithdrawKeepsPrice(c: Setup, v: Vault, provider: Address, shares: int)
    requires PoolOk(v.pool) && Withdraw(c, v, provider, shares).Ok?
    ensures
      var p' := Withdraw(c, v, provider, shares).value.0.pool;
      0 <= v.pool.totalShares && 0 <= p'.totalShares && Quote(v.pool) <= Quote(p')
  {
    WithdrawEffect(c, v, provider, shares);
    SharesNonNegative(v.pool);
    var (v', returned) := Withdraw(c, v, provider, shares).value;
    WithdrawPrice(Quote(v.pool), v.pool.totalLiquidity, v.pool.totalShares, shares, returned, Quote(v'.pool));
  }

  /** More liquidity behind the same shares never lowers the price, less never raises it. */
  lemma LiquidityMovesPrice(p: Pool, p': Pool)
    requires 0 <= p.totalShares == p'.totalShares
    requires 0 <= p.totalLiquidity <= p'.totalLiquidity
    ensures Quote(p) <= Quote(p')
  {
    if p.totalShares > 0 {
      PriceRises(Quote(p), p.totalLiquidity, p.totalShares, p'.totalLiquidity, p'.totalShares, Quote(p'));
    }
  }

  // ---------------------------------------------------------------- round trip

  lemma RoundTripBounds(amount: int, price: int, price': int, issued: int, returned: int,
                        liquidity: int, shares: int)
    requires shares > 0 && liquidity >= 0 && amount > 0 && issued > 0
    requires PriceOf(price, liquidity, shares) && PriceOf(price', liquidity + amount, shares + issued)
    requires price <= price'
    requires issued == amount * PRECISION / price
    requires returned == issued * price' / PRECISION
    ensures issued * price' <= amount * PRECISION
    ensures 0 <= returned <= amount
    ensures (amount - returned) * PRECISION < price + PRECISION
  {
    FloorBounds(amount * PRECISION, price);
    FloorBounds(issued * price', PRECISION);
    PriceBracket(price, liquidity, shares);
    PriceBracket(price', liquidity + amount, shares + issued);
    MulMono(price, price', issued);
    if price < price' {
      assert price' * (shares + issued) == price' * shares + price' * issued;
      MulMono(price + 1, price', shares);
    }
    FloorAtMost(issued * price', PRECISION, amount);
  }

  /** When a withdrawal within the caller's shares and the free liquidity goes through. */
  lemma WithdrawAccepted(c: Setup, v: Vault, provider: Address, shares: int)
    requires PoolOk(v.pool) && provider != c.pool && 0 < shares <= Shares(v.pool, provider)
    requires 0 <= v.pool.totalShares
    requires var returned := shares * Quote(v.pool) / PRECISION;
             && FitsI128(shares * Quote(v.pool)) && returned <= Available(v.pool)
             && returned <= Bal(v.bal, c.pool) && FitsI128(Bal(v.bal, provider) + returned)
    ensures Withdraw(c, v, provider, shares).Ok?
       <==> FitsI128((v.pool.totalLiquidity + DEAD_SHARES) * PRECISION)
  {
    SharesNonNegative(v.pool);
    if SharePrice(v.pool).Ok? {
      SharePriceIsQuote(v.pool);
      TransferAccepted(v.bal, c.pool, provider, shares * Quote(v.pool) / PRECISION);
    }
  }

  /** Deposit and at once withdraw the shares issued: whatever the pool, including the first
      deposit and a price clamped to 1, the withdrawal is refused only when the new price itself
      overflows; it returns at most the deposit and costs less than price/10000 + 1. */
  lemma DepositWithdrawRoundTrip(c: Setup, v: Vault, provider: Address, amount: int)
    requires PoolOk(v.pool) && 0 <= Bal(v.bal, c.pool) && FitsI128(Bal(v.bal, provider))
    requires provider != c.pool && Deposit(c, v, provider, amount).Ok?
    ensures
      var (v', issued) := Deposit(c, v, provider, amount).value;
      var back := Withdraw(c, v', provider, issued);
      && 0 <= Seeded(v.pool).totalShares
      && (back.Ok? <==> FitsI128((v'.pool.totalLiquidity + DEAD_SHARES) * PRECISION))
      && (back.Ok? ==>
            && back.value.1 <= amount
            && (amount - back.value.1) * PRECISION < Quote(Seeded(v.pool)) + PRECISION
            && Shares(back.value.0.pool, provider) == Shares(v.pool, provider))
  {
    DepositEffect(c, v, provider, amount);
    DepositKeepsPrice(c, v, provider, amount);
    var p := Seeded(v.pool);
    var (v', issued) := Deposit(c, v, provider, amount).value;
    SharesNonNegative(p);
    SharesNonNegative(v'.pool);
    var returned := issued * Quote(v'.pool) / PRECISION;
    RoundTripBounds(amount, Quote(p), Quote(v'.pool), issued, returned, p.totalLiquidity, p.totalShares);
    DepositFits(c, v, provider, amount);
    TransferMoves(v.bal, provider, c.pool, amount);
    WithdrawAccepted(c, v', provider, issued);
    if Withdraw(c, v', provider, issued).Ok? {
      WithdrawEffect(c, v', provider, issued);
    }
  }

  lemma DepositFits(c: Setup, v: Vault, provider: Address, amount: int)
    requires Deposit(c, v, provider, amount).Ok?
    ensures FitsI128(amount * PRECISION)
  {
  }

  // ---------------------------------------------------------------- claims of all providers

  /** What each provider would be paid for all of its shares at the quoted price. */
  ghost function Claims(lpShares: map<Address, int>, price: int): map<Address, int> {
    map a | a in lpShares :: lpShares[a] * price / PRECISION
  }

  /** Claims worth no more than the shares at the price. */
  predicate Within(claims: int, shares: int, price: int) {
    claims * PRECISION <= shares * price
  }

  lemma ClaimStep(shares: int, rest: int, restClaims: int, price: int)
    requires Within(restClaims, rest, price)
    ensures Within(shares * price / PRECISION + restClaims, shares + rest, price)
  {
    FloorBounds(shares * price, PRECISION);
    assert (shares + rest) * price == shares * price + rest * price;
  }

  lemma {:induction false} ClaimsAtMostShares(lpShares: map<Address, int>, price: int)
    ensures Within(SumOf(Claims(lpShares, price)), SumOf(lpShares), price)
    decreases |lpShares|
  {
    var claims := Claims(lpShares, price);
    if lpShares == map[] {
      assert claims == map[];
    } else {
      hide Within;
      var a :| a in lpShares;
      SumRemove(lpShares, a);
      SumRemove(claims, a);
      assert claims - {a} == Claims(lpShares - {a}, price);
      ClaimsAtMostShares(lpShares - {a}, price);
      ClaimStep(lpShares[a], SumOf(lpShares - {a}), SumOf(claims - {a}), price);
    }
  }

  lemma ClaimsArithmetic(claims: int, price: int, liquidity: int, shares: int)
    requires liquidity >= 0 && shares > 0 && PriceOf(price, liquidity, shares)
    requires claims * PRECISION <= (shares - DEAD_SHARES) * price
    ensures shares <= (liquidity + DEAD_SHARES) * PRECISION ==>
              claims * PRECISION <= (liquidity + DEAD_SHARES) * PRECISION - DEAD_SHARES * price
    ensures price >= PRECISION ==> claims <= liquidity
  {
    PriceBracket(price, liquidity, shares);
    assert (shares - DEAD_SHARES) * price == price * shares - DEAD_SHARES * price;
  }

  /** All claims together leave the dead shares their part; at or above par they are covered by
      the pool's real liquidity. */
  lemma ClaimsCovered(p: Pool)
    requires PoolOk(p) && p.totalShares > 0
    ensures
      var claims := SumOf(Claims(p.lpShares, Quote(p)));
      && claims * PRECISION <= (p.totalShares - DEAD_SHARES) * Quote(p)
      && (p.totalShares <= (p.totalLiquidity + DEAD_SHARES) * PRECISION ==>
            claims * PRECISION <= (p.totalLiquidity + DEAD_SHARES) * PRECISION - DEAD_SHARES * Quote(p))
      && (Quote(p) >= PRECISION ==> claims <= p.totalLiquidity)
  {
    ClaimsAtMostShares(p.lpShares, Quote(p));
    ClaimsArithmetic(SumOf(Claims(p.lpShares, Quote(p))), Quote(p), p.totalLiquidity, p.totalShares);
  }

  /** The virtual backing of the dead shares puts the providers' unrounded pro-rata value within the
      real liquidity if and only if the pool quotes at least par. */
  lemma ParIsTheBorder(p: Pool)
    requires PoolOk(p) && p.totalShares > 0
    ensures (p.totalShares - DEAD_SHARES) * (p.totalLiquidity + DEAD_SHARES) <= p.totalLiquidity * p.totalShares
       <==> Quote(p) >= PRECISION
  {
    PriceBracket(Quote(p), p.totalLiquidity, p.totalShares);
    var l, s := p.totalLiquidity, p.totalShares;
    assert (s - DEAD_SHARES) * (l + DEAD_SHARES)
        == s * l + DEAD_SHARES * s - DEAD_SHARES * l - DEAD_SHARES * DEAD_SHARES;
    if s <= l + DEAD_SHARES {
      FloorAtLeast((l + DEAD_SHARES) * PRECISION, s, PRECISION);
    } else {
      FloorAtMost((l + DEAD_SHARES) * PRECISION, s, PRECISION - 1);
    }
  }

  /** Non-negative holdings that make up `shares` together. */
  ghost predicate Divides(lpShares: map<Address, int>, shares: int) {
    (forall a :: a in lpShares ==> 0 <= lpShares[a]) && SumOf(lpShares) == shares
  }

  /** When what the pool would pay out for all claims, rounding included, fits in its liquidity:
      however the shares are divided among the providers, if and only if their worth at the quoted
      price is less than one token above it. One provider with all the shares is the worst case. */
  lemma ClaimsFitIff(shares: int, price: int, liquidity: int)
    requires shares >= 0 && price >= 1 && liquidity >= 0
    ensures (forall lpShares :: Divides(lpShares, shares) ==> SumOf(Claims(lpShares, price)) <= liquidity)
       <==> shares * price < (liquidity + 1) * PRECISION
  {
    if shares * price < (liquidity + 1) * PRECISION {
      forall lpShares | Divides(lpShares, shares)
        ensures SumOf(Claims(lpShares, price)) <= liquidity
      {
        ClaimsAtMostShares(lpShares, price);
      }
    } else {
      var lpShares := map[0 := shares];
      SingleHolder(shares, price);
      assert Divides(lpShares, shares);
      FloorAtLeast(shares * price, PRECISION, liquidity + 1);
    }
  }

  lemma SingleHolder(shares: int, price: int)
    ensures SumOf(map[0 := shares]) == shares && SumOf(Claims(map[0 := shares], price)) == shares * price / PRECISION
  {
    var lpShares := map[0 := shares];
    SumRemove(lpShares, 0);
    assert lpShares - {0} == map[];
    var claims := Claims(lpShares, price);
    SumRemove(claims, 0);
    assert claims - {0} == map[];
  }

  /** For a pool: the claims of its providers fit whenever its statistics pass that test. */
  lemma ClaimsFit(p: Pool)
    requires PoolOk(p) && p.totalShares > 0
    requires (p.totalShares - DEAD_SHARES) * Quote(p) < (p.totalLiquidity + 1) * PRECISION
    ensures SumOf(Claims(p.lpShares, Quote(p))) <= p.totalLiquidity
  {
    SharesNonNegative(p);
    SumNonNegative(p.lpShares);
    assert Divides(p.lpShares, p.totalShares - DEAD_SHARES);
    ClaimsFitIff(p.totalShares - DEAD_SHARES, Quote(p), p.totalLiquidity);
  }

  // ---------------------------------------------------------------- credit line calls

  lemma FundEffect(c: Setup, v: Vault, ledger: nat, merchant: Address, amount: int, vendorOk: bool)
    requires PoolOk(v.pool) && FundLoan(c, v, ledger, merchant, amount, vendorOk).Ok?
    ensures
      var v' := FundLoan(c, v, ledger, merchant, amount, vendorOk).value;
      && PoolOk(v'.pool) && 0 < amount <= Available(v.pool)
      && v'.pool.lockedLiquidity == v.pool.lockedLiquidity + amount
      && v'.pool.totalLiquidity == v.pool.totalLiquidity
      && v'.pool.totalShares == v.pool.totalShares && v'.pool.lpShares == v.pool.lpShares
      && Transfer(v.bal, c.pool, merchant, amount) == Ok(v'.bal)
  {
  }

  /** How much of a fee split goes to address `a`. */
  function FeesTo(c: Setup, interest: int, a: Address): int {
    (if c.treasury == Some(a) then ProtocolCut(interest) else 0)
    + (if c.merchantFund == Some(a) then interest - LpCut(interest) - ProtocolCut(interest) else 0)
  }

  function FeesOut(c: Setup, interest: int): int {
    (if c.treasury.Some? then ProtocolCut(interest) else 0)
    + (if c.merchantFund.Some? then interest - LpCut(interest) - ProtocolCut(interest) else 0)
  }

  /** The three cuts are non-negative and never exceed the interest. */
  lemma CutsAddUp(c: Setup, interest: int)
    requires interest >= 0
    ensures 0 <= LpCut(interest) && 0 <= ProtocolCut(interest)
    ensures LpCut(interest) + ProtocolCut(interest) <= interest
    ensures 0 <= FeesOut(c, interest) <= interest - LpCut(interest)
    ensures forall a :: 0 <= FeesTo(c, interest, a) <= FeesOut(c, interest)
  {
  }

  /** The providers' cut of two amounts is that of their sum, or a unit less. */
  lemma CutOfSum(a: int, b: int)
    requires 0 <= a && 0 <= b
    ensures LpCut(a) + LpCut(b) <= LpCut(a + b) <= LpCut(a) + LpCut(b) + 1
  {
  }

  lemma PayFeeMoves(c: Setup, bal: Balances, to: Option<Address>, amount: int)
    requires amount >= 0 && PayFee(c, bal, to, amount).Ok?
    ensures
      var bal' := PayFee(c, bal, to, amount).value;
      forall a {:trigger Bal(bal', a)} :: Bal(bal', a) == Bal(bal, a)
                                    + (if to == Some(a) then amount else 0)
                                    - (if a == c.pool && to.Some? then amount else 0)
  {
    if amount > 0 && to.Some? {
      TransferMoves(bal, c.pool, to.value, amount);
    }
  }

  /** Interest raises the liquidity by the providers' cut; the two fees leave the pool, and an
      unset recipient's fee stays in it. */
  lemma SplitEffect(c: Setup, v: Vault, interest: int)
    requires PoolOk(v.pool) && SplitInterest(c, v, interest).Ok?
    ensures
      var v' := SplitInterest(c, v, interest).value;
      && PoolOk(v'.pool) && interest > 0
      && v'.pool == v.pool.(totalLiquidity := v.pool.totalLiquidity + LpCut(interest))
      && (forall a {:trigger Bal(v'.bal, a)} :: Bal(v'.bal, a) == Bal(v.bal, a) + FeesTo(c, interest, a)
                                        - (if a == c.pool then FeesOut(c, interest) else 0))
  {
    CutsAddUp(c, interest);
    var toFund := interest - LpCut(interest) - ProtocolCut(interest);
    PayFeeMoves(c, v.bal, c.treasury, ProtocolCut(interest));
    PayFeeMoves(c, PayFee(c, v.bal, c.treasury, ProtocolCut(interest)).value, c.merchantFund, toFund);
  }

  lemma RepaymentEffect(c: Setup, v: Vault, principal: int, interest: int)
    requires PoolOk(v.pool) && ReceiveRepayment(c, v, principal, interest).Ok?
    ensures
      var v' := ReceiveRepayment(c, v, principal, interest).value;
      && PoolOk(v'.pool) && 0 <= principal && 0 <= interest && 0 < principal + interest
      && v'.pool == v.pool.(lockedLiquidity := Max(0, v.pool.lockedLiquidity - principal),
                            totalLiquidity := v.pool.totalLiquidity + LpCut(interest))
      && (forall a {:trigger Bal(v'.bal, a)} :: Bal(v'.bal, a) == Bal(v.bal, a) + FeesTo(c, interest, a)
                                        + (if a == c.pool then principal + interest - FeesOut(c, interest) else 0)
                                        - (if a == c.credit then principal + interest else 0))
  {
    CutsAddUp(c, interest);
    TransferMoves(v.bal, c.credit, c.pool, principal + interest);
    var bal := Transfer(v.bal, c.credit, c.pool, principal + interest).value;
    var v1 := Vault(v.pool.(lockedLiquidity := Max(0, v.pool.lockedLiquidity - principal)), bal);
    if interest > 0 {
      SplitEffect(c, v1, interest);
    }
  }

  lemma GuaranteeEffect(c: Setup, v: Vault, amount: int)
    requires PoolOk(v.pool) && ReceiveGuarantee(c, v, amount).Ok?
    ensures
      var v' := ReceiveGuarantee(c, v, amount).value;
      var recovered := Min(amount, v.pool.lockedLiquidity);
      && PoolOk(v'.pool) && amount > 0
      && v'.pool == v.pool.(lockedLiquidity := v.pool.lockedLiquidity - recovered,
                            totalLiquidity := v.pool.totalLiquidity + recovered)
      && Transfer(v.bal, c.credit, c.pool, amount) == Ok(v'.bal)
  {
  }

  /** Funding, repayments, interest and recovered guarantees never lower the price. */
  lemma CreditLineKeepsPrice(c: Setup, v: Vault, ledger: nat, merchant: Address, a: int, b: int, vendorOk: bool)
    requires PoolOk(v.pool)
    ensures 0 <= v.pool.totalShares
    ensures
      var funded, repaid := FundLoan(c, v, ledger, merchant, a, vendorOk), ReceiveRepayment(c, v, a, b);
      var secured, shared := ReceiveGuarantee(c, v, a), DistributeInterest(c, v, a);
      forall r | r in [funded, repaid, secured, shared] && r.Ok? ::
        r.value.pool.totalShares == v.pool.totalShares && Quote(v.pool) <= Quote(r.value.pool)
  {
    SharesNonNegative(v.pool);
    if FundLoan(c, v, ledger, merchant, a, vendorOk).Ok? {
      FundEffect(c, v, ledger, merchant, a, vendorOk);
    }
    if ReceiveRepayment(c, v, a, b).Ok? {
      RepaymentEffect(c, v, a, b);
      CutsAddUp(c, b);
      LiquidityMovesPrice(v.pool, ReceiveRepayment(c, v, a, b).value.pool);
    }
    if ReceiveGuarantee(c, v, a).Ok? {
      GuaranteeEffect(c, v, a);
      LiquidityMovesPrice(v.pool, ReceiveGuarantee(c, v, a).value.pool);
    }
    if DistributeInterest(c, v, a).Ok? {
      SplitEffect(c, v.(bal := Transfer(v.bal, c.credit, c.pool, a).value), a);
      CutsAddUp(c, a);
      LiquidityMovesPrice(v.pool, DistributeInterest(c, v, a).value.pool);
    }
  }

  /** Absorbing a loss is the step that lowers the price; it keeps the accounting in range. */
  lemma AbsorbLowersPrice(v: Vault, shortfall: int)
    requires PoolOk(v.pool) && AbsorbLoss(v, shortfall).Ok?
    ensures
      var p' := AbsorbLoss(v, shortfall).value.pool;
      && PoolOk(p') && 0 <= p'.totalShares == v.pool.totalShares
      && Quote(p') <= Quote(v.pool)
  {
    SharesNonNegative(v.pool);
    LiquidityMovesPrice(AbsorbLoss(v, shortfall).value.pool, v.pool);
  }
}
