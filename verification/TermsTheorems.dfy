/** The terms of every loan, and when a loan is created, requested, approved or cancelled, in
    numbers a borrower can look up. */
module TermsTheorems {
  import opened Common
  import opened Arithmetic
  import opened Token
  import opened LoanModel
  import opened LoanIndex
  import opened ProtocolModel
  import opened Reputation
  import opened BookProofs
  import opened ProtocolProofs
  import opened AcceptanceTheorems
  import P = PoolModel
  import PP = PoolProofs
  import LT = LendingTheorems

  // ---------------------------------------------------------------- terms

  /** The interest rate, in basis points, for a score: the built-in tiers when no base rate is
      governed, and otherwise the base less a discount by score, never below 0. */
  predicate RateFor(rate: nat, base: nat, score: nat) {
    && (base == 0 && score >= 90 ==> rate == 400)
    && (base == 0 && 75 <= score < 90 ==> rate == 600)
    && (base == 0 && 60 <= score < 75 ==> rate == 800)
    && (base == 0 && score < 60 ==> rate == 1_000)
    && (base > 0 && score >= 90 ==> rate == if base > 600 then base - 600 else 0)
    && (base > 0 && 75 <= score < 90 ==> rate == if base > 400 then base - 400 else 0)
    && (base > 0 && 60 <= score < 75 ==> rate == if base > 200 then base - 200 else 0)
    && (base > 0 && score < 60 ==> rate == base)
  }

  /** Interest at `rate` and a service fee of 1%, both rounded down, on top of the price. */
  predicate Priced(l: Loan, rate: nat) {
    && l.rateBps == rate
    && l.interest * 10_000 <= l.total * rate < (l.interest + 1) * 10_000
    && l.serviceFee * 100 <= l.total < (l.serviceFee + 1) * 100
    && l.remaining == l.total + l.interest + l.serviceFee
  }

  lemma RateIs(base: nat, score: nat)
    ensures RateFor(InterestRate(base, score), base, score)
  {
  }

  lemma BuiltAsPriced(b: Book, now: nat, user: Address, vendor: Address, total: int, guarantee: int,
                      schedule: seq<Installment>, score: nat, status: Status, loanType: LoanType, ctx: Context, l: Loan)
    requires BuildLoan(b, now, user, vendor, total, guarantee, schedule, score, status, loanType, ctx) == Ok(l)
    ensures RateFor(l.rateBps, ctx.params.baseInterestBps, score) && Priced(l, l.rateBps)
    ensures l == Loan(b.counter + 1, user, vendor, total, guarantee, l.rateBps, l.interest, l.serviceFee,
                      total, l.interest, l.serviceFee, l.remaining, schedule, status, loanType, now, 0, 0, 0)
  {
    RateIs(ctx.params.baseInterestBps, score);
  }

  lemma BuildChecks(b: Book, now: nat, user: Address, vendor: Address, total: int, guarantee: int,
                    schedule: seq<Installment>, score: nat, status: Status, loanType: LoanType, ctx: Context)
    requires BuildLoan(b, now, user, vendor, total, guarantee, schedule, score, status, loanType, ctx).Ok?
    ensures
      var l := BuildLoan(b, now, user, vendor, total, guarantee, schedule, score, status, loanType, ctx).value;
      && ValidateGuarantee(ctx.params, total, guarantee).Ok? && ctx.vendorActive && 0 < guarantee <= total
      && l.borrower == user && l.vendor == vendor && l.total == total && l.guarantee == guarantee
      && l.id == b.counter + 1 && FitsI128(Debt(b, user) + l.remaining)
  {
  }

  lemma RecordCreated(w: World, user: Address, vendor: Address, total: int, guarantee: int,
                      schedule: seq<Installment>, loanType: LoanType, ctx: Context)
    requires CreateLoan(w, user, vendor, total, guarantee, schedule, loanType, ctx).Ok?
    requires w.book.counter + 1 !in w.book.loans
    ensures
      var built := BuildLoan(w.book, w.now, user, vendor, total, guarantee, schedule, Score(w.scores, user), Active,
                             loanType, ctx);
      var b' := CreateLoan(w, user, vendor, total, guarantee, schedule, loanType, ctx).value.book;
      && built.Ok? && built.value.id == b'.counter == w.book.counter + 1
      && b'.loans == w.book.loans[b'.counter := built.value.(fundedAt := w.now)]
  {
    hide BuildLoan, FundFromPool, ValidateGuarantee, ValidateLiquidity, Transfer, Append;
    BuildChecks(w.book, w.now, user, vendor, total, guarantee, schedule, Score(w.scores, user), Active, loanType, ctx);
  }

  lemma RecordRequested(w: World, user: Address, vendor: Address, total: int, guarantee: int,
                        schedule: seq<Installment>, loanType: LoanType, ctx: Context)
    requires RequestLoan(w, user, vendor, total, guarantee, schedule, loanType, ctx).Ok?
    requires w.book.counter + 1 !in w.book.loans
    ensures
      var built := BuildLoan(w.book, w.now, user, vendor, total, guarantee, schedule, Score(w.scores, user), Pending,
                             loanType, ctx);
      var b' := RequestLoan(w, user, vendor, total, guarantee, schedule, loanType, ctx).value.book;
      && built.Ok? && built.value.id == b'.counter == w.book.counter + 1
      && b'.loans == w.book.loans[b'.counter := built.value]
  {
    hide BuildLoan, ValidateGuarantee, Transfer, Append;
    BuildChecks(w.book, w.now, user, vendor, total, guarantee, schedule, Score(w.scores, user), Pending, loanType, ctx);
  }

  /** The terms of the loan that an accepted `create_loan` or `request_loan` stores; no other
      record changes. */
  lemma TermsOfALoan(w: World, op: Op)
    requires (op.CallCreateLoan? || op.CallRequestLoan?) && Step(w, op).Ok? && w.book.counter + 1 !in w.book.loans
    ensures Step(w, op).value.book.counter == w.book.counter + 1
    ensures w.book.counter + 1 in Step(w, op).value.book.loans
    ensures
      var l := Step(w, op).value.book.loans[w.book.counter + 1];
      && Step(w, op).value.book.loans == w.book.loans[w.book.counter + 1 := l]
      && RateFor(l.rateBps, op.ctx.params.baseInterestBps, Score(w.scores, op.user)) && Priced(l, l.rateBps)
      && l.principal == l.total == op.total && l.guarantee == op.guarantee
      && l.interestAmount == l.interest && l.serviceFeeAmount == l.serviceFee && l.lateFees == 0 && l.cursor == 0
      && l.id == w.book.counter + 1 && l.borrower == op.user && l.vendor == op.vendor
      && l.schedule == op.schedule && l.loanType == op.loanType && l.createdAt == w.now
      && (op.CallCreateLoan? ==> l.status == Active && l.fundedAt == w.now)
      && (op.CallRequestLoan? ==> l.status == Pending && l.fundedAt == 0)
  {
    hide BuildLoan, CreateLoan, RequestLoan, RateFor;
    if op.CallCreateLoan? {
      RecordCreated(w, op.user, op.vendor, op.total, op.guarantee, op.schedule, op.loanType, op.ctx);
    } else {
      RecordRequested(w, op.user, op.vendor, op.total, op.guarantee, op.schedule, op.loanType, op.ctx);
    }
    var score, status := Score(w.scores, op.user), if op.CallCreateLoan? then Active else Pending;
    BuiltAsPriced(w.book, w.now, op.user, op.vendor, op.total, op.guarantee, op.schedule, score, status, op.loanType,
                  op.ctx, BuildLoan(w.book, w.now, op.user, op.vendor, op.total, op.guarantee, op.schedule, score,
                                    status, op.loanType, op.ctx).value);
  }

  /** A higher score never pays a higher rate. */
  lemma BetterScoreNeverPaysMore(base: nat, score: nat, better: nat, rate: nat, betterRate: nat)
    requires score <= better && RateFor(rate, base, score) && RateFor(betterRate, base, better)
    ensures betterRate <= rate
  {
  }

  // ---------------------------------------------------------------- what the pool agrees to

  /** Nothing a funding adds up comes near 128 bits. */
  predicate Room(p: P.Pool, vendor: Address) {
    && p.totalLiquidity <= AMPLE && p.outflowCapBps <= 10_000
    && 0 <= P.Funded(p, vendor) <= AMPLE && 0 <= p.windowUsed <= AMPLE
  }

  /** The pool can and may pay `amount` to the vendor now: liquidity, the cap on the ledger's
      outflow, the ceiling on the vendor's exposure, its own view of the vendor, and its tokens. */
  predicate Fundable(w: World, vendor: Address, amount: int, poolVendorOk: bool) {
    var p := w.vault.pool;
    amount <= 0
    || (&& poolVendorOk && amount <= p.totalLiquidity - p.lockedLiquidity
        && (p.outflowCapBps > 0 ==>
              (if p.windowLedger == w.ledger then p.windowUsed else 0) + amount
              <= (p.totalLiquidity - p.lockedLiquidity) * p.outflowCapBps / 10_000)
        && (p.exposureCap > 0 ==> P.Funded(p, vendor) + amount <= p.exposureCap)
        && amount <= Bal(w.vault.bal, w.setup.pool))
  }

  lemma CapOfOutflow(available: int, bps: nat)
    requires 0 <= available <= AMPLE && bps <= 10_000
    ensures P.OutflowCap(available, bps) == Ok(available * bps / 10_000)
  {
    MulWithin(available, bps);
  }

  lemma MulWithin(a: int, b: int)
    requires 0 <= a <= AMPLE && 0 <= b <= 10_000
    ensures 0 <= a * b <= AMPLE * 10_000
  {
    MulMono(0, a, b);
    MulMono(a, AMPLE, b);
    MulMono(b, 10_000, AMPLE);
  }

  lemma FundingAcceptedIff(w: World, l: Loan, ctx: Context)
    requires PP.PoolOk(w.vault.pool) && Room(w.vault.pool, l.vendor) && Holdings(w.vault.bal, 2 * AMPLE)
    ensures FundFromPool(w, l, ctx).Ok? <==> Fundable(w, l.vendor, l.total - l.guarantee, ctx.poolVendorOk)
  {
    hide P.OutflowCap, Transfer;
    var p, amount := w.vault.pool, l.total - l.guarantee;
    CapOfOutflow(P.Available(p), p.outflowCapBps);
    TransferAccepted(w.vault.bal, w.setup.pool, l.vendor, amount);
  }

  // ---------------------------------------------------------------- purchases

  /** The loan a score can have: guarantee, minimum score, and a debt within the limit. */
  predicate Offered(params: Params, score: nat, debt: int, total: int, guarantee: int, rate: nat) {
    && 0 < guarantee <= total && total * params.minGuaranteePercent < (guarantee + 1) * 100
    && score >= params.minReputation
    && debt + total + total * rate / 10_000 + total / 100
       <= (if score >= 90 then 10_000 else if score >= 75 then 5_000 else if score >= 60 then 2_500 else 1_000)
  }

  /** Parameters that governance lets through. */
  predicate Governed(params: Params) {
    0 < params.minGuaranteePercent <= 100
  }

  lemma GuaranteeEnough(total: int, guarantee: int, percent: int)
    requires 0 < percent <= 100 && 0 < total
    ensures total * percent < (guarantee + 1) * 100 <==> guarantee >= total * percent / 100
  {
  }

  lemma GuaranteeAcceptedIff(params: Params, total: int, guarantee: int)
    requires Governed(params)
    ensures ValidateGuarantee(params, total, guarantee).Ok? ==>
              0 < guarantee <= total && total * params.minGuaranteePercent < (guarantee + 1) * 100
    ensures 0 < guarantee <= total <= 10_000 && total * params.minGuaranteePercent < (guarantee + 1) * 100 ==>
              ValidateGuarantee(params, total, guarantee).Ok?
  {
    if 0 < total {
      GuaranteeEnough(total, guarantee, params.minGuaranteePercent);
      MulMono(0, total, params.minGuaranteePercent);
      if total <= 10_000 {
        MulWithin(total, params.minGuaranteePercent);
      }
    }
  }

  lemma InterestFits(total: int, rate: nat)
    requires 0 < total <= 10_000 && total * rate / 10_000 <= 10_000
    ensures BpsAmount(total, rate) == Ok(total * rate / 10_000)
  {
    FloorBounds(total * rate, 10_000);
    MulMono(0, rate, total);
  }

  lemma InterestIs(total: int, rate: nat)
    requires 0 < total && BpsAmount(total, rate).Ok?
    ensures BpsAmount(total, rate).value == total * rate / 10_000
  {
    MulMono(0, rate, total);
  }

  lemma ServiceFeeIs(total: int)
    requires 0 < total
    ensures BpsAmount(total, SERVICE_FEE_BPS).Ok? ==> BpsAmount(total, SERVICE_FEE_BPS).value == total / 100
    ensures total <= 10_000 ==> BpsAmount(total, SERVICE_FEE_BPS).Ok?
  {
  }

  /** A purchase is priced and numbered exactly if the vendor is active and the offer stands. */
  lemma BuildAcceptedIff(b: Book, now: nat, user: Address, vendor: Address, total: int, guarantee: int,
                         schedule: seq<Installment>, score: nat, status: Status, loanType: LoanType, ctx: Context)
    requires Governed(ctx.params) && 0 <= Debt(b, user) && b.counter < U64_MAX && score >= ctx.params.minReputation
    ensures BuildLoan(b, now, user, vendor, total, guarantee, schedule, score, status, loanType, ctx).Ok?
       <==> ctx.vendorActive && Offered(ctx.params, score, Debt(b, user), total, guarantee,
                                        InterestRate(ctx.params.baseInterestBps, score))
  {
    hide ValidateGuarantee, BpsAmount, InterestRate;
    var rate := InterestRate(ctx.params.baseInterestBps, score);
    GuaranteeAcceptedIff(ctx.params, total, guarantee);
    if 0 < guarantee <= total {
      MulMono(0, rate, total);
      ServiceFeeIs(total);
      if BpsAmount(total, rate).Ok? {
        InterestIs(total, rate);
      }
      if total <= 10_000 && total * rate / 10_000 <= 10_000 {
        InterestFits(total, rate);
      }
    }
  }

  lemma OneRate(base: nat, score: nat, rate: nat)
    requires RateFor(rate, base, score)
    ensures rate == InterestRate(base, score)
  {
  }

  /** What every purchase brings along: amounts in range, governed parameters and room for another
      id and another index entry. */
  ghost predicate Fitting(w: World, user: Address, ctx: Context) {
    Ample(w, user) && Governed(ctx.params) && w.book.counter < U64_MAX && Count(w.book.index, user) < U64_MAX
  }

  lemma LiquidityAcceptedIff(p: P.Pool, required: int)
    requires PP.PoolOk(p) && p.totalLiquidity <= AMPLE && 0 <= required
    ensures ValidateLiquidity(p, required).Ok? <==> required <= p.totalLiquidity - p.lockedLiquidity
  {
    MulWithin(AMPLE, 10_000);
  }

  /** Entering a loan, pulling its guarantee and having the pool pay. */
  lemma OpeningAcceptedIff(w: World, l: Loan, counter: nat, ctx: Context)
    requires w.setup.pool != w.setup.credit && PP.PoolOk(w.vault.pool) && Holdings(w.vault.bal, AMPLE)
    requires Room(w.vault.pool, l.vendor) && Signs(w.setup, l.borrower) && 0 < l.guarantee <= l.total
    requires FitsI128(Debt(w.book, l.borrower) + l.remaining)
    requires l.id !in w.book.loans && Count(w.book.index, l.borrower) < U64_MAX
    ensures OpenLoan(w.(book := w.book.(counter := counter)), l, ctx).Ok?
       <==> && l.guarantee <= Bal(w.vault.bal, l.borrower)
            && Fundable(w, l.vendor, l.total - l.guarantee, ctx.poolVendorOk)
  {
    hide FundFromPool, Transfer, Fundable, PP.PoolOk, Room;
    var w1 := w.(book := w.book.(counter := counter));
    TransferAccepted(w.vault.bal, l.borrower, w.setup.credit, l.guarantee);
    if Transfer(w.vault.bal, l.borrower, w.setup.credit, l.guarantee).Ok? {
      TransferMoves(w.vault.bal, l.borrower, w.setup.credit, l.guarantee);
      var bal := Transfer(w.vault.bal, l.borrower, w.setup.credit, l.guarantee).value;
      var w2 := w1.(vault := w1.vault.(bal := bal));
      FundingAcceptedIff(w2, l, ctx);
      SameFundable(w, w2, l.vendor, l.total - l.guarantee, ctx.poolVendorOk);
    }
  }

  lemma SameFundable(w: World, w2: World, vendor: Address, amount: int, poolVendorOk: bool)
    requires w2.vault.pool == w.vault.pool && w2.ledger == w.ledger && w2.setup == w.setup
    requires Bal(w2.vault.bal, w.setup.pool) == Bal(w.vault.bal, w.setup.pool)
    ensures Fundable(w2, vendor, amount, poolVendorOk) <==> Fundable(w, vendor, amount, poolVendorOk)
  {
  }

  lemma UnderwritingAcceptedIff(w: World, user: Address, vendor: Address, total: int, guarantee: int,
                                schedule: seq<Installment>, loanType: LoanType, ctx: Context, rate: nat)
    requires PP.PoolOk(w.vault.pool) && w.vault.pool.totalLiquidity <= AMPLE
    requires Governed(ctx.params) && 0 <= Debt(w.book, user) && w.book.counter < U64_MAX
    requires rate == InterestRate(ctx.params.baseInterestBps, Score(w.scores, user))
    ensures Underwrite(w, user, vendor, total, guarantee, schedule, loanType, ctx).Ok?
       <==> && Signs(w.setup, user) && ctx.vendorActive
            && Offered(ctx.params, Score(w.scores, user), Debt(w.book, user), total, guarantee, rate)
            && total - guarantee <= w.vault.pool.totalLiquidity - w.vault.pool.lockedLiquidity
  {
    hide BuildLoan, ValidateGuarantee, ValidateLiquidity, InterestRate;
    var score := Score(w.scores, user);
    GuaranteeAcceptedIff(ctx.params, total, guarantee);
    if guarantee <= total {
      LiquidityAcceptedIff(w.vault.pool, total - guarantee);
    }
    if score >= ctx.params.minReputation {
      BuildAcceptedIff(w.book, w.now, user, vendor, total, guarantee, schedule, score, Active, loanType, ctx);
      if BuildLoan(w.book, w.now, user, vendor, total, guarantee, schedule, score, Active, loanType, ctx).Ok? {
        BuildChecks(w.book, w.now, user, vendor, total, guarantee, schedule, score, Active, loanType, ctx);
      }
    }
  }

  lemma DebtNonNegative(w: World, a: Address)
    requires WorldOk(w)
    ensures 0 <= Debt(w.book, a) && w.book.counter + 1 !in w.book.loans
  {
    SumBounds(DebtOf(a), w.book.loans, w.book.counter);
    assert Debt(w.book, a) == Total(DebtOf(a), w.book);
  }

  /** `create_loan` is accepted exactly if the borrower signs, the vendor is active, the offer
      stands, the guarantee is at hand, and the pool can pay the rest. */
  lemma CreationAcceptedIff(w: World, user: Address, vendor: Address, total: int, guarantee: int,
                            schedule: seq<Installment>, loanType: LoanType, ctx: Context, rate: nat)
    requires WorldOk(w) && Fitting(w, user, ctx) && Room(w.vault.pool, vendor)
    requires RateFor(rate, ctx.params.baseInterestBps, Score(w.scores, user))
    ensures CreateLoan(w, user, vendor, total, guarantee, schedule, loanType, ctx).Ok?
       <==> && user != w.setup.pool && user != w.setup.credit && ctx.vendorActive
            && Offered(ctx.params, Score(w.scores, user), Debt(w.book, user), total, guarantee, rate)
            && guarantee <= Bal(w.vault.bal, user)
            && Fundable(w, vendor, total - guarantee, ctx.poolVendorOk)
  {
    hide BuildLoan, ValidateGuarantee, ValidateLiquidity, OpenLoan, RateFor, BookOk, Holdings, Score, Debt;
    var score := Score(w.scores, user);
    OneRate(ctx.params.baseInterestBps, score, rate);
    DebtNonNegative(w, user);
    UnderwritingAcceptedIff(w, user, vendor, total, guarantee, schedule, loanType, ctx, rate);
    if Underwrite(w, user, vendor, total, guarantee, schedule, loanType, ctx).Ok? {
      BuildChecks(w.book, w.now, user, vendor, total, guarantee, schedule, score, Active, loanType, ctx);
      var l := Underwrite(w, user, vendor, total, guarantee, schedule, loanType, ctx).value;
      OpeningAcceptedIff(w, l, l.id, ctx);
    }
  }

  /** `request_loan` is accepted in the same cases, whatever the pool has. */
  lemma RequestAcceptedIff(w: World, user: Address, vendor: Address, total: int, guarantee: int,
                           schedule: seq<Installment>, loanType: LoanType, ctx: Context, rate: nat)
    requires WorldOk(w) && Fitting(w, user, ctx)
    requires RateFor(rate, ctx.params.baseInterestBps, Score(w.scores, user))
    ensures RequestLoan(w, user, vendor, total, guarantee, schedule, loanType, ctx).Ok?
       <==> && user != w.setup.pool && user != w.setup.credit && ctx.vendorActive
            && Offered(ctx.params, Score(w.scores, user), Debt(w.book, user), total, guarantee, rate)
            && guarantee <= Bal(w.vault.bal, user)
  {
    hide BuildLoan, ValidateGuarantee, RateFor, BookOk, Transfer, Score, Debt;
    var score := Score(w.scores, user);
    OneRate(ctx.params.baseInterestBps, score, rate);
    DebtNonNegative(w, user);
    TransferAccepted(w.vault.bal, user, w.setup.credit, guarantee);
    if score >= ctx.params.minReputation {
      BuildAcceptedIff(w.book, w.now, user, vendor, total, guarantee, schedule, score, Pending, loanType, ctx);
      if BuildLoan(w.book, w.now, user, vendor, total, guarantee, schedule, score, Pending, loanType, ctx).Ok? {
        BuildChecks(w.book, w.now, user, vendor, total, guarantee, schedule, score, Pending, loanType, ctx);
      }
    }
  }

  // ---------------------------------------------------------------- requests, decided

  /** A request that the administrator can approve now. */
  predicate Ripe(w: World, id: nat, ctx: Context) {
    && id in w.book.loans && w.book.loans[id].status.Pending?
    && w.book.loans[id].schedule != []
    && (forall i :: 0 <= i < |w.book.loans[id].schedule| ==> w.now < w.book.loans[id].schedule[i].dueDate)
    && ctx.vendorActive && ctx.params.minReputation <= Score(w.scores, w.book.loans[id].borrower)
    && Fundable(w, w.book.loans[id].vendor, w.book.loans[id].total - w.book.loans[id].guarantee, ctx.poolVendorOk)
  }

  /** `approve_loan` is accepted exactly if the administrator calls it on a request that is ripe. */
  lemma ApprovalAcceptedIff(w: World, caller: Address, id: nat, ctx: Context)
    requires WorldOk(w)
    requires id in w.book.loans ==>
               Ample(w, w.book.loans[id].borrower) && Room(w.vault.pool, w.book.loans[id].vendor)
               && w.book.loans[id].remaining <= AMPLE
    ensures ApproveLoan(w, caller, id, ctx).Ok? <==> caller == w.admin && Ripe(w, id, ctx)
  {
    hide FundFromPool, ValidateLiquidity, Fundable, BookOk;
    if id in w.book.loans {
      var l := w.book.loans[id];
      LoanIsOk(w, id);
      DebtNonNegative(w, l.borrower);
      LiquidityAcceptedIff(w.vault.pool, l.total - l.guarantee);
      FundingAcceptedIff(w, l, ctx);
      if Fundable(w, l.vendor, l.total - l.guarantee, ctx.poolVendorOk) {
        FundableIsAvailable(w, l.vendor, l.total - l.guarantee, ctx.poolVendorOk);
      }
      StoredUnderId(w, id);
    }
  }

  lemma StoredUnderId(w: World, id: nat)
    requires WorldOk(w) && id in w.book.loans
    ensures w.book.loans[id].id == id
  {
  }

  lemma FundableIsAvailable(w: World, vendor: Address, amount: int, poolVendorOk: bool)
    requires PP.PoolOk(w.vault.pool) && Fundable(w, vendor, amount, poolVendorOk)
    ensures amount <= w.vault.pool.totalLiquidity - w.vault.pool.lockedLiquidity
  {
  }

  /** An approval activates the record, puts its balance on the borrower's debt and pays the vendor
      from the pool. */
  lemma ApprovalActivates(w: World, caller: Address, id: nat, ctx: Context, a: Address)
    requires WorldOk(w) && ApproveLoan(w, caller, id, ctx).Ok?
    ensures
      var l, w' := w.book.loans[id], ApproveLoan(w, caller, id, ctx).value;
      && w'.book.loans == w.book.loans[id := l.(status := Active, fundedAt := w.now)]
      && Debt(w'.book, a) == Debt(w.book, a) + (if a == l.borrower then l.remaining else 0)
      && Bal(w'.vault.bal, a) == Bal(w.vault.bal, a) - (if a == w.setup.pool then l.total - l.guarantee else 0)
                                 + (if a == l.vendor then l.total - l.guarantee else 0)
  {
    hide FundFromPool, ValidateLiquidity;
    LT.FundingMoves(w, w.book.loans[id], ctx, ApproveLoan(w, caller, id, ctx).value.vault, a);
  }

  /** `cancel_loan` is accepted exactly if the borrower or the administrator calls it on a request
      that is still Pending. */
  lemma CancellationAcceptedIff(w: World, caller: Address, id: nat)
    requires WorldOk(w) && (id in w.book.loans ==> Ample(w, w.book.loans[id].borrower))
    ensures CancelLoan(w, caller, id).Ok?
       <==> && id in w.book.loans && w.book.loans[id].status.Pending?
            && (caller == w.book.loans[id].borrower || caller == w.admin)
  {
    if id in w.book.loans && w.book.loans[id].status.Pending? {
      var l := w.book.loans[id];
      SumBounds(Escrowed, w.book.loans, w.book.counter);
      assert Value(Escrowed, l) <= Total(Escrowed, w.book);
      TransferAccepted(w.vault.bal, w.setup.credit, l.borrower, l.guarantee);
    }
  }

  /** A request moves its guarantee into escrow and nothing else. */
  lemma RequestMovesGuarantee(w: World, user: Address, vendor: Address, total: int, guarantee: int,
                              schedule: seq<Installment>, loanType: LoanType, ctx: Context, a: Address)
    requires w.book.counter + 1 !in w.book.loans
    requires RequestLoan(w, user, vendor, total, guarantee, schedule, loanType, ctx).Ok?
    ensures
      var w' := RequestLoan(w, user, vendor, total, guarantee, schedule, loanType, ctx).value;
      && w'.vault.pool == w.vault.pool && w'.book.debts == w.book.debts
      && Bal(w'.vault.bal, a) == Bal(w.vault.bal, a) - (if a == user then guarantee else 0)
                                 + (if a == w.setup.credit then guarantee else 0)
  {
    var _ := RequestParts(w, user, vendor, total, guarantee, schedule, loanType, ctx);
    TransferMoves(w.vault.bal, user, w.setup.credit, guarantee);
  }
}
