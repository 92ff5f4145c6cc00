/** What the pool pays and charges, in numbers, and when it accepts a call. */
module PoolTheorems {
  import opened Common
  import opened Arithmetic
  import opened Token
  import opened LoanModel
  import opened ProtocolModel
  import opened ProtocolProofs
  import opened ProtocolRuns
  import opened BookProofs
  import opened AcceptanceTheorems
  import P = PoolModel
  import PP = PoolProofs
  import LP = LoanProofs
  import GT = GuaranteeTheorems
  import FL = FundingLog

  // ---------------------------------------------------------------- the split of interest

  /** What address `a` receives of interest: a tenth as the treasury, and as the merchant fund what
      the providers' 85% and the treasury's tenth, both rounded down, leave. */
  function FeeIncome(c: P.Setup, interest: int, a: Address): int {
    (if c.treasury == Some(a) then interest / 10 else 0)
    + (if c.merchantFund == Some(a) then interest - interest * 85 / 100 - interest / 10 else 0)
  }

  /** What all recipients together receive. */
  function FeesPaid(c: P.Setup, interest: int): int {
    (if c.treasury.Some? then interest / 10 else 0)
    + (if c.merchantFund.Some? then interest - interest * 85 / 100 - interest / 10 else 0)
  }

  lemma CutsInNumbers(c: P.Setup, interest: int, a: Address)
    requires 0 <= interest
    ensures P.LpCut(interest) == interest * 85 / 100
    ensures PP.FeesTo(c, interest, a) == FeeIncome(c, interest, a)
    ensures PP.FeesOut(c, interest) == FeesPaid(c, interest)
  {
  }

  /** The pool keeps 85% of interest as liquidity, the treasury gets a tenth and the merchant fund
      the rest; nothing else in the pool and nobody else's balance changes. A recipient that is not
      set leaves its part with the pool. */
  lemma InterestIsSplit(c: P.Setup, v: P.Vault, interest: int, a: Address)
    requires PP.PoolOk(v.pool) && P.SplitInterest(c, v, interest).Ok?
    ensures
      var v' := P.SplitInterest(c, v, interest).value;
      && 0 < interest
      && v'.pool == v.pool.(totalLiquidity := v.pool.totalLiquidity + interest * 85 / 100)
      && Bal(v'.bal, a) == Bal(v.bal, a) + FeeIncome(c, interest, a)
                           - (if a == c.pool then FeesPaid(c, interest) else 0)
  {
    hide P.SplitInterest, P.LpCut, PP.FeesTo, PP.FeesOut;
    PP.SplitEffect(c, v, interest);
    CutsInNumbers(c, interest, a);
  }

  /** The same for interest that comes with principal, which unlocks. */
  lemma RepaymentIsSplit(c: P.Setup, v: P.Vault, principal: int, interest: int, a: Address)
    requires PP.PoolOk(v.pool) && P.ReceiveRepayment(c, v, principal, interest).Ok?
    ensures
      var v' := P.ReceiveRepayment(c, v, principal, interest).value;
      && 0 <= principal && 0 <= interest && 0 < principal + interest
      && v'.pool == v.pool.(lockedLiquidity := Max(0, v.pool.lockedLiquidity - principal),
                            totalLiquidity := v.pool.totalLiquidity + interest * 85 / 100)
      && Bal(v'.bal, a) == Bal(v.bal, a) + FeeIncome(c, interest, a)
                           + (if a == c.pool then principal + interest - FeesPaid(c, interest) else 0)
                           - (if a == c.credit then principal + interest else 0)
  {
    hide P.ReceiveRepayment, P.LpCut, PP.FeesTo, PP.FeesOut;
    PP.RepaymentEffect(c, v, principal, interest);
    CutsInNumbers(c, interest, a);
  }

  lemma ForwardedIsSplit(c: P.Setup, v: P.Vault, from: Address, principal: int, interest: int, a: Address)
    requires PP.PoolOk(v.pool) && Forward(c, v, from, principal + interest, principal, interest).Ok?
    ensures
      var v' := Forward(c, v, from, principal + interest, principal, interest).value;
      && 0 <= principal && 0 <= interest
      && v'.pool == v.pool.(lockedLiquidity := Max(0, v.pool.lockedLiquidity - principal),
                            totalLiquidity := v.pool.totalLiquidity + interest * 85 / 100)
      && Bal(v'.bal, a) == Bal(v.bal, a) + FeeIncome(c, interest, a)
                           + (if a == c.pool then principal + interest - FeesPaid(c, interest) else 0)
                           - (if a == from then principal + interest else 0)
  {
    hide P.ReceiveRepayment, FeeIncome, FeesPaid, PP.PoolOk;
    TransferMoves(v.bal, from, c.credit, principal + interest);
    RepaymentIsSplit(c, v.(bal := Transfer(v.bal, from, c.credit, principal + interest).value), principal, interest, a);
  }

  /** Fees and interest are served before principal. */
  lemma IncomeFirst(l: Loan, amount: int)
    requires LoanOk(l) && 0 < amount <= l.remaining
    ensures FeePart(Split(l, amount)) == Min(amount, l.lateFees + l.interest + l.serviceFee)
    ensures Split(l, amount).principal == amount - FeePart(Split(l, amount))
  {
  }

  lemma PaymentIsSplit(c: P.Setup, v: P.Vault, l: Loan, amount: int, paid: Loan, a: Address)
    requires PP.PoolOk(v.pool) && LoanOk(l) && 0 < amount <= l.remaining && MovePayment(c, v, l, amount, paid).Ok?
    ensures
      var v' := MovePayment(c, v, l, amount, paid).value;
      var income := Min(amount, l.lateFees + l.interest + l.serviceFee);
      var back := if paid.status.Paid? then l.guarantee else 0;
      && v'.pool == v.pool.(lockedLiquidity := Max(0, v.pool.lockedLiquidity - (amount - income)),
                            totalLiquidity := v.pool.totalLiquidity + income * 85 / 100)
      && Bal(v'.bal, a) == Bal(v.bal, a) + FeeIncome(c, income, a)
                           + (if a == c.pool then amount - FeesPaid(c, income) else 0)
                           + (if a == l.borrower then back - amount else 0) - (if a == c.credit then back else 0)
  {
    hide Forward, FeeIncome, FeesPaid, PP.PoolOk, Split, LoanOk;
    IncomeFirst(l, amount);
    var s := Split(l, amount);
    ForwardedIsSplit(c, v, l.borrower, s.principal, FeePart(s), a);
    if paid.status.Paid? {
      TransferMoves(Forward(c, v, l.borrower, amount, s.principal, FeePart(s)).value.bal, c.credit, l.borrower,
                    l.guarantee);
    }
  }

  /** Where the money of a repayment goes, whole loan or installment: what it pays of late fees,
      interest and service fee is the pool's income and split as such, the rest unlocks, and the
      guarantee comes back with the payment that settles the loan. */
  lemma RepaymentsMoveMoney(w: World, op: Op, a: Address)
    requires WorldOk(w) && (op.CallRepayLoan? || op.CallRepayInstallment?) && Step(w, op).Ok?
    ensures op.id in w.book.loans && Accrue(w.book.loans[op.id], w.now).Ok?
    ensures
      var w', due := Step(w, op).value, Accrue(w.book.loans[op.id], w.now).value.loan;
      var income := Min(op.amount, due.lateFees + due.interest + due.serviceFee);
      var back := if op.amount == due.remaining then due.guarantee else 0;
      && w'.vault.pool == w.vault.pool.(
                              lockedLiquidity := Max(0, w.vault.pool.lockedLiquidity - (op.amount - income)),
                              totalLiquidity := w.vault.pool.totalLiquidity + income * 85 / 100)
      && Bal(w'.vault.bal, a) == Bal(w.vault.bal, a) + FeeIncome(w.setup, income, a)
                                 + (if a == w.setup.pool then op.amount - FeesPaid(w.setup, income) else 0)
                                 + (if a == op.borrower then back - op.amount else 0)
                                 - (if a == w.setup.credit then back else 0)
  {
    hide Step, Accrue, MovePayment, FeeIncome, FeesPaid, BookOk;
    var w' := Step(w, op).value;
    GT.PaymentParts(w, op, w');
    var due := Accrue(w.book.loans[op.id], w.now).value.loan;
    LP.PayKeepsLoan(due, op.amount);
    PaymentIsSplit(w.setup, w.vault, due, op.amount, GT.LeftOver(w, op), a);
  }

  // ---------------------------------------------------------------- prices

  /** The price of 10,000 shares: all liquidity and 1,000 virtual units over all shares, of which
      1,000 are the pool's own from the first deposit on; at least 1. */
  function PriceNow(p: P.Pool): int {
    var shares := if p.totalShares <= 0 then 1_000 else p.totalShares;
    Max(1, (p.totalLiquidity + 1_000) * 10_000 / shares)
  }

  lemma PriceOfSeeded(p: P.Pool)
    requires PP.PoolOk(p)
    ensures 0 <= PP.Seeded(p).totalShares && PP.Quote(PP.Seeded(p)) == PriceNow(p)
    ensures 0 < p.totalShares ==> PP.Quote(p) == PriceNow(p)
    ensures PP.PoolOk(PP.Seeded(p)) && PP.Seeded(p).totalShares >= 1_000
  {
    PP.SharesNonNegative(p);
    SumNonNegative(map[]);
  }

  /** A deposit brings its amount and gets shares for it at the price, rounded down. */
  lemma DepositIssues(c: P.Setup, v: P.Vault, provider: Address, amount: int)
    requires PP.PoolOk(v.pool) && P.Deposit(c, v, provider, amount).Ok?
    ensures
      var (v', issued) := P.Deposit(c, v, provider, amount).value;
      && issued == amount * 10_000 / PriceNow(v.pool)
      && v'.pool.totalLiquidity == v.pool.totalLiquidity + amount
      && v'.pool.totalShares == (if v.pool.totalShares == 0 then 1_000 else v.pool.totalShares) + issued
      && P.Shares(v'.pool, provider) == P.Shares(v.pool, provider) + issued
      && v'.pool == v.pool.(lpShares := v'.pool.lpShares, totalShares := v'.pool.totalShares,
                            totalLiquidity := v'.pool.totalLiquidity)
  {
    hide PP.Quote, PriceNow;
    PP.DepositEffect(c, v, provider, amount);
    PriceOfSeeded(v.pool);
  }

  lemma QuotientFits(x: int, price: int)
    requires 0 <= x && 1 <= price
    ensures 0 <= x / price <= x
    ensures x / price > 0 <==> price <= x
  {
    MulMono(1, price, x + 1);
    FloorAtMost(x, price, x);
    if price <= x {
      FloorAtLeast(x, price, 1);
    } else {
      FloorAtMost(x, price, 0);
    }
  }

  /** A deposit is accepted exactly if it is of at least 1,000, buys a share, and is at hand. */
  lemma DepositAcceptedIff(c: P.Setup, v: P.Vault, provider: Address, amount: int)
    requires PP.PoolOk(v.pool) && Holdings(v.bal, AMPLE)
    requires v.pool.totalLiquidity <= AMPLE && v.pool.totalShares <= AMPLE * 10_000
    ensures P.Deposit(c, v, provider, amount).Ok?
       <==> 1_000 <= amount <= Bal(v.bal, provider) && PriceNow(v.pool) <= amount * 10_000
  {
    hide PriceNow, Transfer;
    if 0 <= amount <= AMPLE {
      PriceOfSeeded(v.pool);
      PP.SharesNonNegative(PP.Seeded(v.pool));
      SharePriceFits(PP.Seeded(v.pool));
      PP.SharePriceIsQuote(PP.Seeded(v.pool));
      QuotientFits(amount * 10_000, PriceNow(v.pool));
    }
    TransferAccepted(v.bal, provider, c.pool, amount);
  }

  lemma SharePriceFits(p: P.Pool)
    requires PP.PoolOk(p) && p.totalLiquidity <= AMPLE
    ensures P.SharePrice(p).Ok?
  {
  }

  /** A withdrawal pays its shares at the price, rounded down. */
  lemma WithdrawalReturns(c: P.Setup, v: P.Vault, provider: Address, shares: int)
    requires PP.PoolOk(v.pool) && P.Withdraw(c, v, provider, shares).Ok?
    ensures
      var (v', returned) := P.Withdraw(c, v, provider, shares).value;
      && returned == shares * PriceNow(v.pool) / 10_000
      && v'.pool.totalLiquidity == v.pool.totalLiquidity - returned
      && v'.pool.totalShares == v.pool.totalShares - shares
      && P.Shares(v'.pool, provider) == P.Shares(v.pool, provider) - shares
      && v'.pool == v.pool.(lpShares := v'.pool.lpShares, totalShares := v'.pool.totalShares,
                            totalLiquidity := v'.pool.totalLiquidity)
  {
    hide PP.Quote, PriceNow;
    PP.WithdrawEffect(c, v, provider, shares);
    PriceOfSeeded(v.pool);
  }

  lemma WorthFits(p: P.Pool, shares: int)
    requires PP.PoolOk(p) && 0 < p.totalShares <= AMPLE * 10_000 && p.totalLiquidity <= AMPLE
    requires 0 <= shares <= p.totalShares
    ensures 0 <= shares * PriceNow(p) <= (AMPLE + 1_000) * 10_000
  {
    PP.PriceBracket(PriceNow(p), p.totalLiquidity, p.totalShares);
    MulMono(shares, p.totalShares, PriceNow(p));
    MulMono(0, shares, PriceNow(p));
  }

  /** A withdrawal is accepted exactly if the provider has the shares and the pool has their worth
      at hand and not locked. */
  lemma WithdrawalAcceptedIff(c: P.Setup, v: P.Vault, provider: Address, shares: int)
    requires PP.PoolOk(v.pool) && provider != c.pool && Holdings(v.bal, AMPLE)
    requires v.pool.totalLiquidity <= AMPLE && v.pool.totalShares <= AMPLE * 10_000
    ensures P.Withdraw(c, v, provider, shares).Ok?
       <==> && 0 < shares <= P.Shares(v.pool, provider)
            && shares * PriceNow(v.pool) / 10_000 <= v.pool.totalLiquidity - v.pool.lockedLiquidity
            && shares * PriceNow(v.pool) / 10_000 <= Bal(v.bal, c.pool)
  {
    hide PriceNow, Transfer, PP.Quote;
    if 0 < shares <= P.Shares(v.pool, provider) {
      PP.SharesNonNegative(v.pool);
      PriceOfSeeded(v.pool);
      SharePriceFits(v.pool);
      PP.SharePriceIsQuote(v.pool);
      WorthFits(v.pool, shares);
      TransferAccepted(v.bal, c.pool, provider, shares * PriceNow(v.pool) / 10_000);
    }
  }

  // ---------------------------------------------------------------- caps

  /** The cap on outflow is set exactly if it is at most 10,000 bps, the ceiling on exposure exactly
      if it is not negative, and nothing else moves. */
  lemma CapsAcceptedIff(w: World, bps: nat, cap: int)
    ensures
      var r := Step(w, CallSetOutflowCap(bps));
      && (r.Ok? <==> bps <= 10_000)
      && (r.Ok? ==> r.value == w.(vault := w.vault.(pool := w.vault.pool.(outflowCapBps := bps))))
    ensures
      var r := Step(w, CallSetExposureCap(cap));
      && (r.Ok? <==> 0 <= cap)
      && (r.Ok? ==> r.value == w.(vault := w.vault.(pool := w.vault.pool.(exposureCap := cap))))
  {
  }

  ghost predicate CapsOk(p: P.Pool) {
    p.outflowCapBps <= 10_000 && 0 <= p.exposureCap
  }

  lemma StepKeepsCaps(w: World, op: Op)
    requires WorldOk(w) && CapsOk(w.vault.pool) && Step(w, op).Ok?
    ensures CapsOk(Step(w, op).value.vault.pool)
  {
    hide BookOk, Step;
    if op.CallRepayLoan? || op.CallRepayInstallment? {
      RepaymentsMoveMoney(w, op, 0);
    } else if op.CallMarkDefaulted? {
      DefaultIsStep(w, op);
      DefaultWritesOff(w, op.id, op.params);
    } else {
      OthersKeepCaps(w, op);
    }
  }

  lemma DefaultIsStep(w: World, op: Op)
    requires op.CallMarkDefaulted? && Step(w, op).Ok?
    ensures MarkDefaulted(w, op.id, op.params) == Step(w, op)
  {
  }

  lemma FundingKeepsCaps(w: World, l: Loan, ctx: Context)
    requires FundFromPool(w, l, ctx).Ok?
    ensures CapsOk(FundFromPool(w, l, ctx).value.pool) <==> CapsOk(w.vault.pool)
  {
    hide Transfer;
  }

  lemma LendingKeepsCaps(w: World, op: Op)
    requires CapsOk(w.vault.pool) && Step(w, op).Ok? && (op.CallCreateLoan? || op.CallApproveLoan?)
    ensures CapsOk(Step(w, op).value.vault.pool)
  {
    hide FundFromPool, Underwrite, EnterActive, WriteLoan, AddDebt, Transfer, ValidateLiquidity;
    if op.CallApproveLoan? {
      FundingKeepsCaps(w, w.book.loans[op.id], op.ctx);
    } else {
      var l := Underwrite(w, op.user, op.vendor, op.total, op.guarantee, op.schedule, op.loanType, op.ctx).value;
      var bal := Transfer(w.vault.bal, l.borrower, w.setup.credit, l.guarantee).value;
      FundingKeepsCaps(w.(book := w.book.(counter := l.id), vault := w.vault.(bal := bal)), l, op.ctx);
    }
  }

  lemma OthersKeepCaps(w: World, op: Op)
    requires CapsOk(w.vault.pool) && Step(w, op).Ok?
    requires !op.CallRepayLoan? && !op.CallRepayInstallment? && !op.CallMarkDefaulted?
    ensures CapsOk(Step(w, op).value.vault.pool)
  {
    hide CreateLoan, ApproveLoan, BuildLoan, WriteLoan, AddDebt, Transfer, Accrue;
    if op.CallCreateLoan? || op.CallApproveLoan? {
      LendingKeepsCaps(w, op);
    }
  }

  lemma {:induction false} RunKeepsCaps(w: World, ops: seq<Op>)
    requires AllOk(w) && CapsOk(w.vault.pool)
    ensures CapsOk(Run(w, ops).vault.pool)
  {
    hide AllOk, Step, CapsOk;
    if ops != [] {
      var front := ops[..|ops| - 1];
      RunKeepsCaps(w, front);
      RunFollows(w, front);
      ApplyKeepsCaps(Run(w, front), ops[|ops| - 1]);
    }
  }

  lemma ApplyKeepsCaps(w: World, op: Op)
    requires AllOk(w) && CapsOk(w.vault.pool)
    ensures CapsOk(Apply(w, op).vault.pool)
  {
    hide Step, CapsOk;
    if Step(w, op).Ok? {
      StepKeepsCaps(w, op);
    }
  }

  lemma {:induction false} SumsNonNegative(log: seq<P.Funding>, ledger: nat, merchant: Address)
    requires forall i :: 0 <= i < |log| ==> log[i].amount > 0
    ensures 0 <= FL.CappedSum(log, ledger) && 0 <= FL.MerchantSum(log, merchant)
  {
    if log != [] {
      SumsNonNegative(log[..|log| - 1], ledger, merchant);
    }
  }

  /** In every reachable world the caps, the window and the exposures are in range. */
  lemma CapsStayInRange(w: World, merchant: Address)
    requires Reachable(w)
    ensures w.vault.pool.outflowCapBps <= 10_000 && 0 <= w.vault.pool.exposureCap
    ensures 0 <= w.vault.pool.windowUsed && 0 <= P.Funded(w.vault.pool, merchant)
  {
    ReachableOk(w);
    var w0: World, ops: seq<Op> :| Initial(w0) && w == Run(w0, ops);
    InitialAllOk(w0);
    RunKeepsCaps(w0, ops);
    SumsNonNegative(w.vault.pool.fundings, w.vault.pool.windowLedger, merchant);
  }

  // ---------------------------------------------------------------- the loss of a default

  /** A default first gives the pool the guarantee, as far as it has liquidity locked, and then
      takes the principal the guarantee does not cover off what is locked and off all liquidity. */
  lemma DefaultWritesOff(w: World, id: nat, params: Params)
    requires WorldOk(w) && MarkDefaulted(w, id, params).Ok?
    ensures
      var l, p, p' := w.book.loans[id], w.vault.pool, MarkDefaulted(w, id, params).value.vault.pool;
      var recovered := Min(l.guarantee, p.lockedLiquidity);
      var lost := if l.principal > l.guarantee then l.principal - l.guarantee else 0;
      && p'.lockedLiquidity == p.lockedLiquidity - recovered - Min(lost, p.lockedLiquidity - recovered)
      && p'.totalLiquidity == p.totalLiquidity + recovered - Min(lost, p.totalLiquidity + recovered)
      && p' == p.(lockedLiquidity := p'.lockedLiquidity, totalLiquidity := p'.totalLiquidity)
    ensures
      var l, b' := w.book.loans[id], MarkDefaulted(w, id, params).value.book;
      Debt(b', l.borrower) == Debt(w.book, l.borrower) - l.remaining
  {
    hide MarkDefaulted, Forfeit, BookOk;
    var w' := MarkDefaulted(w, id, params).value;
    DefaultParts(w, id, params, w');
    LoanIsOk(w, id);
    ForfeitEffect(w.setup, w.vault, w.book.loans[id]);
  }
}
