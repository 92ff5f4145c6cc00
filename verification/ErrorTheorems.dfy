/** A refusal names its reason: whatever error a call returns, what that error says is the case. */
module ErrorTheorems {
  import opened Common
  import opened Token
  import opened LoanModel
  import opened ProtocolModel
  import opened Reputation
  import opened PoolTheorems
  import LifecycleProofs
  import P = PoolModel
  import PP = PoolProofs
  import LT = LendingTheorems

  // ---------------------------------------------------------------- purchases

  /** What is wrong with a purchase, by the error it is refused with; anything else is arithmetic
      that overflows or a transfer that its sender cannot pay. */
  predicate PurchaseFault(w: World, user: Address, total: int, guarantee: int, ctx: Context, e: Error) {
    match e
    case NotAuthorized => user == w.setup.pool || user == w.setup.credit
    case InvalidAmount => total <= 0 || guarantee <= 0 || guarantee > total
    case InsufficientGuarantee => 0 < total && guarantee < TruncDiv(total * ctx.params.minGuaranteePercent, 100)
    case VendorNotActive => !ctx.vendorActive || !ctx.poolVendorOk
    case InsufficientReputation => Score(w.scores, user) < ctx.params.minReputation
    case InsufficientLiquidity => w.vault.pool.totalLiquidity - w.vault.pool.lockedLiquidity < total - guarantee
    case ExposureLimitExceeded => !ExposureAllowed(w, user, total, ctx)
    case _ => e == Overflow || e == InsufficientBalance || e == OutflowCapExceeded || e == MerchantExposureCapExceeded
  }

  /** The debt with the new balance is within the limit of the score. */
  predicate ExposureAllowed(w: World, user: Address, total: int, ctx: Context) {
    var score := Score(w.scores, user);
    var interest := BpsAmount(total, InterestRate(ctx.params.baseInterestBps, score));
    var fee := BpsAmount(total, 100);
    interest.Ok? && fee.Ok? ==>
      Debt(w.book, user) + total + interest.value + fee.value
      <= (if score >= 90 then 10_000 else if score >= 75 then 5_000 else if score >= 60 then 2_500 else 1_000)
  }

  lemma GuaranteeErrors(params: Params, total: int, guarantee: int)
    requires ValidateGuarantee(params, total, guarantee).Err?
    ensures match ValidateGuarantee(params, total, guarantee).error
            case InvalidAmount => total <= 0 || guarantee <= 0 || guarantee > total
            case InsufficientGuarantee => 0 < total && guarantee < TruncDiv(total * params.minGuaranteePercent, 100)
            case e => e == Overflow
  {
    hide TruncDiv;
  }

  lemma WindowErrors(p: P.Pool, ledger: nat, amount: int)
    ensures
      match P.AdvanceWindow(p, ledger, amount)
      case Ok(p') => p' == p.(windowLedger := p'.windowLedger, windowUsed := p'.windowUsed)
      case Err(OutflowCapExceeded) =>
        (if p.windowLedger == ledger then p.windowUsed else 0) + amount
        > TruncDiv((p.totalLiquidity - p.lockedLiquidity) * p.outflowCapBps, 10_000)
      case Err(e) => e == Overflow
  {
    hide TruncDiv;
  }

  /** A funding is refused for its vendor, the liquidity, a cap, or want of tokens. */
  lemma FundingErrors(w: World, l: Loan, ctx: Context)
    requires FundFromPool(w, l, ctx).Err?
    ensures
      var p, amount := w.vault.pool, l.total - l.guarantee;
      match FundFromPool(w, l, ctx).error
      case VendorNotActive => !ctx.poolVendorOk
      case InsufficientLiquidity => p.totalLiquidity - p.lockedLiquidity < amount
      case OutflowCapExceeded =>
        (if p.windowLedger == w.ledger then p.windowUsed else 0) + amount
        > TruncDiv((p.totalLiquidity - p.lockedLiquidity) * p.outflowCapBps, 10_000)
      case MerchantExposureCapExceeded => 0 < p.exposureCap < P.Funded(p, l.vendor) + amount
      case InsufficientBalance => Bal(w.vault.bal, w.setup.pool) < amount
      case e => e == Overflow
  {
    hide TruncDiv, P.AdvanceWindow;
    WindowErrors(w.vault.pool, w.ledger, l.total - l.guarantee);
  }

  lemma BuildErrors(w: World, user: Address, vendor: Address, total: int, guarantee: int, schedule: seq<Installment>,
                    status: Status, loanType: LoanType, ctx: Context)
    requires BuildLoan(w.book, w.now, user, vendor, total, guarantee, schedule, Score(w.scores, user), status, loanType,
                       ctx).Err?
    ensures PurchaseFault(w, user, total, guarantee, ctx,
                          BuildLoan(w.book, w.now, user, vendor, total, guarantee, schedule, Score(w.scores, user),
                                    status, loanType, ctx).error)
  {
    hide BpsAmount, InterestRate, ValidateGuarantee, TruncDiv;
    if ValidateGuarantee(ctx.params, total, guarantee).Err? {
      GuaranteeErrors(ctx.params, total, guarantee);
    }
    AmountErrors(total, InterestRate(ctx.params.baseInterestBps, Score(w.scores, user)));
    AmountErrors(total, SERVICE_FEE_BPS);
  }

  lemma AmountErrors(base: int, bps: int)
    ensures BpsAmount(base, bps).Err? ==> BpsAmount(base, bps).error == Overflow
  {
  }

  lemma OpeningErrors(w: World, l: Loan, ctx: Context)
    requires OpenLoan(w, l, ctx).Err? && 0 <= l.guarantee
    ensures
      match OpenLoan(w, l, ctx).error
      case VendorNotActive => !ctx.poolVendorOk
      case InsufficientLiquidity => w.vault.pool.totalLiquidity - w.vault.pool.lockedLiquidity < l.total - l.guarantee
      case e => e == Overflow || e == InsufficientBalance || e == OutflowCapExceeded || e == MerchantExposureCapExceeded
  {
    hide FundFromPool, TruncDiv;
    var bal := Transfer(w.vault.bal, l.borrower, w.setup.credit, l.guarantee);
    if bal.Ok? && EnterActive(w.book, l).Ok? {
      FundingErrors(w.(vault := w.vault.(bal := bal.value)), l, ctx);
    }
  }

  lemma BuiltAmounts(w: World, user: Address, vendor: Address, total: int, guarantee: int, schedule: seq<Installment>,
                     status: Status, loanType: LoanType, ctx: Context)
    requires BuildLoan(w.book, w.now, user, vendor, total, guarantee, schedule, Score(w.scores, user), status, loanType,
                       ctx).Ok?
    ensures
      var l := BuildLoan(w.book, w.now, user, vendor, total, guarantee, schedule, Score(w.scores, user), status,
                         loanType, ctx).value;
      l.total == total && l.guarantee == guarantee && 0 < guarantee
  {
    hide BpsAmount, InterestRate, TruncDiv;
  }

  lemma CreationErrors(w: World, op: Op)
    requires op.CallCreateLoan? && Step(w, op).Err?
    ensures PurchaseFault(w, op.user, op.total, op.guarantee, op.ctx, Step(w, op).error)
  {
    hide BuildLoan, ValidateGuarantee, OpenLoan, ExposureAllowed, TruncDiv, Transfer;
    var b := BuildLoan(w.book, w.now, op.user, op.vendor, op.total, op.guarantee, op.schedule, Score(w.scores, op.user),
                       Active, op.loanType, op.ctx);
    if ValidateGuarantee(op.ctx.params, op.total, op.guarantee).Err? {
      GuaranteeErrors(op.ctx.params, op.total, op.guarantee);
    } else if b.Err? {
      BuildErrors(w, op.user, op.vendor, op.total, op.guarantee, op.schedule, Active, op.loanType, op.ctx);
    } else {
      BuiltAmounts(w, op.user, op.vendor, op.total, op.guarantee, op.schedule, Active, op.loanType, op.ctx);
      var l := b.value.(fundedAt := w.now);
      if OpenLoan(w.(book := w.book.(counter := l.id)), l, op.ctx).Err? {
        OpeningErrors(w.(book := w.book.(counter := l.id)), l, op.ctx);
      }
    }
  }

  lemma RequestErrors(w: World, op: Op)
    requires op.CallRequestLoan? && Step(w, op).Err?
    ensures PurchaseFault(w, op.user, op.total, op.guarantee, op.ctx, Step(w, op).error)
  {
    hide BuildLoan, ValidateGuarantee, ExposureAllowed, TruncDiv;
    if ValidateGuarantee(op.ctx.params, op.total, op.guarantee).Err? {
      GuaranteeErrors(op.ctx.params, op.total, op.guarantee);
    } else if BuildLoan(w.book, w.now, op.user, op.vendor, op.total, op.guarantee, op.schedule,
                        Score(w.scores, op.user), Pending, op.loanType, op.ctx).Err? {
      BuildErrors(w, op.user, op.vendor, op.total, op.guarantee, op.schedule, Pending, op.loanType, op.ctx);
    } else {
      BuiltAmounts(w, op.user, op.vendor, op.total, op.guarantee, op.schedule, Pending, op.loanType, op.ctx);
    }
  }

  lemma PurchaseErrors(w: World, op: Op)
    requires (op.CallCreateLoan? || op.CallRequestLoan?) && Step(w, op).Err?
    ensures PurchaseFault(w, op.user, op.total, op.guarantee, op.ctx, Step(w, op).error)
  {
    hide Step, PurchaseFault;
    if op.CallCreateLoan? {
      CreationErrors(w, op);
    } else {
      RequestErrors(w, op);
    }
  }

  // ---------------------------------------------------------------- existing loans

  /** What is wrong with the approval of loan `id`. */
  predicate ApprovalFault(w: World, caller: Address, id: nat, ctx: Context, e: Error) {
    match e
    case NotAuthorized => caller != w.admin
    case LoanNotFound => id !in w.book.loans
    case InvalidLoanStatus => id in w.book.loans && !w.book.loans[id].status.Pending?
    case InvalidDueDate => id in w.book.loans && !LT.Ahead(w.book.loans[id].schedule, w.now)
    case VendorNotActive => !ctx.vendorActive || !ctx.poolVendorOk
    case InsufficientReputation =>
      id in w.book.loans && Score(w.scores, w.book.loans[id].borrower) < ctx.params.minReputation
    case InsufficientLiquidity =>
      && id in w.book.loans
      && w.vault.pool.totalLiquidity - w.vault.pool.lockedLiquidity
         < w.book.loans[id].total - w.book.loans[id].guarantee
    case _ => e in {Overflow, InsufficientBalance, OutflowCapExceeded, MerchantExposureCapExceeded}
  }

  /** What is wrong with another call about loan `id`. */
  predicate LoanFault(w: World, op: Op, id: nat, e: Error) {
    match e
    case LoanNotFound => id !in w.book.loans
    case LoanNotCancellable => id in w.book.loans && !w.book.loans[id].status.Pending?
    case LoanNotActive => id in w.book.loans && !w.book.loans[id].status.Active?
    case InsufficientRefundBalance => id in w.book.loans
                                      && Bal(w.vault.bal, w.setup.credit) < w.book.loans[id].guarantee
    case InvalidInstallmentIndex => op.CallRepayInstallment? && id in w.book.loans
                                    && |w.book.loans[id].schedule| <= op.i
    case InstallmentAlreadyPaid => op.CallRepayInstallment? && id in w.book.loans && op.i < |w.book.loans[id].schedule|
                                   && w.book.loans[id].schedule[op.i].paid
    case InvalidRepaymentAmount => (op.CallRepayLoan? || op.CallRepayInstallment?) && id in w.book.loans
                                   && Accrue(w.book.loans[id], w.now).Ok?
                                   && !(0 < op.amount <= Accrue(w.book.loans[id], w.now).value.loan.remaining)
    case LoanNotOverdue => id in w.book.loans && w.book.loans[id].schedule != []
                           && w.now <= w.book.loans[id].schedule[|w.book.loans[id].schedule| - 1].dueDate
    case LoanInGracePeriod => op.CallMarkDefaulted? && id in w.book.loans && w.book.loans[id].schedule != []
                              && w.now <= w.book.loans[id].schedule[|w.book.loans[id].schedule| - 1].dueDate
                                          + op.params.gracePeriod
    case NotAuthorized =>
      || (op.CallCancelLoan? && !Signs(w.setup, op.caller))
      || ((op.CallRepayLoan? || op.CallRepayInstallment?) && !Signs(w.setup, op.borrower))
    case UnauthorizedRepayer =>
      && id in w.book.loans
      && (op.CallCancelLoan? ==> op.caller != w.book.loans[id].borrower && op.caller != w.admin)
      && (op.CallRepayLoan? || op.CallRepayInstallment? ==> op.borrower != w.book.loans[id].borrower)
    case ReputationCallFailed =>
      && id in w.book.loans
      && (op.CallRepayLoan? || op.CallRepayInstallment? ==>
            100 < Score(w.scores, op.borrower) + LT.Points(w.book.loans[id].schedule, w.now))
      && (op.CallMarkDefaulted? ==>
            Score(w.scores, w.book.loans[id].borrower)
            < (if w.book.loans[id].total <= op.params.largeLoanThreshold then op.params.defaultPenalty
               else op.params.largeLoanDefaultPenalty))
    case _ => e in {Overflow, Underflow, InsufficientBalance, InvalidAmount}
  }

  lemma ApprovableErrors(w: World, caller: Address, id: nat, ctx: Context)
    requires Approvable(w, caller, id, ctx).Err?
    ensures ApprovalFault(w, caller, id, ctx, Approvable(w, caller, id, ctx).error)
  {
    hide ValidateLiquidity;
    if id in w.book.loans {
      LiquidityErrors(w.vault.pool, w.book.loans[id].total - w.book.loans[id].guarantee);
    }
  }

  lemma ApprovedOne(w: World, caller: Address, id: nat, ctx: Context)
    requires Approvable(w, caller, id, ctx).Ok?
    ensures id in w.book.loans && Approvable(w, caller, id, ctx).value == w.book.loans[id]
  {
    hide ValidateLiquidity;
  }

  /** Whatever error an approval returns, what it says is the case. */
  lemma ApprovalErrors(w: World, caller: Address, id: nat, ctx: Context)
    requires ApproveLoan(w, caller, id, ctx).Err?
    ensures ApprovalFault(w, caller, id, ctx, ApproveLoan(w, caller, id, ctx).error)
  {
    hide Approvable, FundFromPool, WriteLoan, LT.Ahead, Score;
    if Approvable(w, caller, id, ctx).Err? {
      ApprovableErrors(w, caller, id, ctx);
    } else {
      ApprovedOne(w, caller, id, ctx);
      if FundFromPool(w, w.book.loans[id], ctx).Err? {
        FundingErrors(w, w.book.loans[id], ctx);
      }
      WriteErrors();
    }
  }

  lemma LiquidityErrors(p: P.Pool, required: int)
    ensures match ValidateLiquidity(p, required)
            case Ok(_) => true
            case Err(InsufficientLiquidity) => p.totalLiquidity - p.lockedLiquidity < required
            case Err(e) => e == Overflow
  {
  }

  lemma WriteErrors()
    ensures forall book, loan {:trigger WriteLoan(book, loan)} ::
              WriteLoan(book, loan).Err? ==> WriteLoan(book, loan).error == Overflow
  {
  }

  lemma CancellationErrors(w: World, op: Op)
    requires op.CallCancelLoan? && Step(w, op).Err?
    ensures LoanFault(w, op, op.id, Step(w, op).error)
  {
    hide Accrue, WriteLoan;
    if op.id in w.book.loans {
      WriteErrors();
    }
  }

  /** A payment already checked fails only on the way: in arithmetic, for want of tokens, or because
      the score has no room for the reward. */
  lemma MovingErrors(c: P.Setup, v: P.Vault, l: Loan, amount: int, paid: Loan)
    requires MovePayment(c, v, l, amount, paid).Err?
    ensures MovePayment(c, v, l, amount, paid).error in {InvalidAmount, InsufficientBalance, Overflow, Underflow}
  {
  }

  lemma AccrualErrors(l: Loan, now: nat)
    requires Accrue(l, now).Err?
    ensures Accrue(l, now).error == Overflow
  {
  }

  lemma SettlingErrors(w: World, l: Loan, amount: int, paid: Loan)
    requires Settle(w, l, amount, paid).Err? && paid.id in w.book.loans
    ensures Settle(w, l, amount, paid).error
         in {InvalidAmount, InsufficientBalance, Overflow, Underflow, ReputationCallFailed}
    ensures Settle(w, l, amount, paid).error == ReputationCallFailed ==>
              100 < Score(w.scores, l.borrower) + LT.Points(l.schedule, w.now)
  {
    hide MovePayment;
    LT.RewardInPoints(l, w.now);
    if MovePayment(w.setup, w.vault, l, amount, paid).Err? {
      MovingErrors(w.setup, w.vault, l, amount, paid);
    }
  }

  /** A payment whose fees are booked and whose amount is in range. */
  lemma CheckedErrors(w: World, op: Op, l: Loan, a: Accrual, book: Book, left: Loan)
    requires (op.CallRepayLoan? || op.CallRepayInstallment?) && op.id in w.book.loans && w.book.loans[op.id] == l
    requires l.borrower == op.borrower && Accrue(l, w.now) == Ok(a) && l.id in book.loans && left.id == l.id
    requires Settle(w.(book := book), a.loan, op.amount, left).Err?
    ensures LoanFault(w, op, op.id, Settle(w.(book := book), a.loan, op.amount, left).error)
  {
    hide Settle, Accrue;
    LifecycleProofs.AccrueShape(l, w.now);
    SettlingErrors(w.(book := book), a.loan, op.amount, left);
  }

  lemma RepaymentErrors(w: World, op: Op)
    requires (op.CallRepayLoan? || op.CallRepayInstallment?) && Step(w, op).Err?
    requires forall id :: id in w.book.loans ==> w.book.loans[id].id == id
    ensures LoanFault(w, op, op.id, Step(w, op).error)
  {
    hide Accrue, Settle, Split, MarkPaid, LT.Points, Score;
    if Repayable(w, op.borrower, op.id).Ok? {
      var l := w.book.loans[op.id];
      if Accrue(l, w.now).Err? {
        AccrualErrors(l, w.now);
      } else if BookFee(w.book, l.borrower, Accrue(l, w.now).value.fee).Ok? {
        var a := Accrue(l, w.now).value;
        var booked := BookFee(w.book, l.borrower, a.fee).value;
        var paid := Pay(a.loan, op.amount);
        var left := if op.CallRepayLoan? then paid else paid.(schedule := MarkPaid(paid.schedule, op.i, w.now));
        LifecycleProofs.AccrueShape(l, w.now);
        if Settle(w.(book := booked), a.loan, op.amount, left).Err? {
          CheckedErrors(w, op, l, a, booked, left);
        }
      }
    }
  }

  lemma UpkeepErrors(w: World, op: Op)
    requires (op.CallApplyLateFees? || op.CallMarkDefaulted?) && Step(w, op).Err?
    ensures LoanFault(w, op, op.id, Step(w, op).error)
  {
    hide Accrue, Forfeit;
    if op.id in w.book.loans {
      if Accrue(w.book.loans[op.id], w.now).Err? {
        AccrualErrors(w.book.loans[op.id], w.now);
      }
      if op.CallMarkDefaulted? && Forfeit(w.setup, w.vault, w.book.loans[op.id]).Err? {
        ForfeitErrors(w.setup, w.vault, w.book.loans[op.id]);
      }
    }
  }

  lemma ForfeitErrors(c: P.Setup, v: P.Vault, l: Loan)
    requires Forfeit(c, v, l).Err?
    ensures Forfeit(c, v, l).error in {InvalidAmount, InsufficientBalance, Overflow}
  {
  }

  /** Whatever error any other call about a loan returns, what it says is the case. */
  lemma LoanErrors(w: World, op: Op)
    requires op.CallCancelLoan? || op.CallRepayLoan? || op.CallRepayInstallment? || op.CallApplyLateFees?
             || op.CallMarkDefaulted?
    requires Step(w, op).Err? && forall id :: id in w.book.loans ==> w.book.loans[id].id == id
    ensures LoanFault(w, op, op.id, Step(w, op).error)
  {
    hide Step, LoanFault;
    if op.CallCancelLoan? {
      CancellationErrors(w, op);
    } else if op.CallRepayLoan? || op.CallRepayInstallment? {
      RepaymentErrors(w, op);
    } else {
      UpkeepErrors(w, op);
    }
  }

  // ---------------------------------------------------------------- liquidity providers

  predicate DepositFault(c: P.Setup, v: P.Vault, provider: Address, amount: int, e: Error) {
    match e
    case InvalidAmount => amount < 1_000 || amount * 10_000 < PriceNow(v.pool)
    case InsufficientBalance => Bal(v.bal, provider) < amount
    case _ => e == Overflow
  }

  predicate WithdrawalFault(c: P.Setup, v: P.Vault, provider: Address, shares: int, e: Error) {
    match e
    case InvalidAmount => shares <= 0
    case InsufficientShares => P.Shares(v.pool, provider) < shares
    case InsufficientLiquidity => v.pool.totalLiquidity - v.pool.lockedLiquidity < shares * PriceNow(v.pool) / 10_000
    case InsufficientBalance => Bal(v.bal, c.pool) < shares * PriceNow(v.pool) / 10_000
    case _ => e == Overflow
  }

  /** The same for deposits ... */
  lemma DepositErrors(c: P.Setup, v: P.Vault, provider: Address, amount: int)
    requires PP.PoolOk(v.pool) && P.Deposit(c, v, provider, amount).Err?
    ensures DepositFault(c, v, provider, amount, P.Deposit(c, v, provider, amount).error)
  {
    hide PriceNow, P.SharePrice, PP.Quote, PP.PoolOk;
    PriceOfSeeded(v.pool);
    PriceErrors(PP.Seeded(v.pool));
    if P.SharePrice(PP.Seeded(v.pool)).Ok? && 1_000 <= amount {
      PP.SharePriceIsQuote(PP.Seeded(v.pool));
      QuotientFits(amount * 10_000, PriceNow(v.pool));
    }
  }

  /** ... and withdrawals. */
  lemma WithdrawalErrors(c: P.Setup, v: P.Vault, provider: Address, shares: int)
    requires PP.PoolOk(v.pool) && P.Withdraw(c, v, provider, shares).Err?
    ensures WithdrawalFault(c, v, provider, shares, P.Withdraw(c, v, provider, shares).error)
  {
    hide PriceNow, P.SharePrice, PP.PoolOk, TruncDiv, Transfer;
    PriceErrors(v.pool);
    if 0 < shares <= P.Shares(v.pool, provider) && P.SharePrice(v.pool).Ok? {
      PriceForHolder(v.pool, provider);
      WorthNonNegative(shares, PriceNow(v.pool));
      TransferErrors(v.bal, c.pool, provider, shares * PriceNow(v.pool) / 10_000);
    }
  }

  lemma PriceForHolder(p: P.Pool, provider: Address)
    requires PP.PoolOk(p) && 0 < P.Shares(p, provider) && P.SharePrice(p).Ok?
    ensures P.SharePrice(p).value == PriceNow(p) >= 1
  {
    PP.SharesNonNegative(p);
    PP.SharePriceIsQuote(p);
    PriceOfSeeded(p);
  }

  lemma WorthNonNegative(shares: int, price: int)
    requires 0 <= shares && 0 <= price
    ensures 0 <= shares * price && 0 <= TruncDiv(shares * price, 10_000) == shares * price / 10_000
  {
  }

  lemma TransferErrors(bal: Balances, from: Address, to: Address, amount: int)
    requires 0 <= amount
    ensures match Transfer(bal, from, to, amount)
            case Ok(_) => true
            case Err(InsufficientBalance) => Bal(bal, from) < amount
            case Err(e) => e == Overflow
  {
  }

  lemma PriceErrors(p: P.Pool)
    ensures P.SharePrice(p).Err? ==> P.SharePrice(p).error == Overflow
  {
  }
}
