/** The promises of the composed protocol, for every reachable world. */
module ProtocolTheorems {
  import opened Common
  import opened Token
  import opened LoanModel
  import opened ProtocolModel
  import opened Reputation
  import opened BookProofs
  import opened ProtocolProofs
  import opened LifecycleProofs
  import opened ProtocolRuns
  import P = PoolModel
  import PP = PoolProofs

  // ---------------------------------------------------------------- debts and records

  /** Every borrower's running debt is the sum of its Active balances, hence never negative. */
  lemma RunningDebtIsActiveBalance(w: World, borrower: Address)
    requires Reachable(w)
    ensures 0 <= Debt(w.book, borrower) == Total(DebtOf(borrower), w.book)
  {
    ReachableOk(w);
    SumBounds(DebtOf(borrower), w.book.loans, w.book.counter);
  }

  /** Buckets are non-negative and make up the balance; a loan is Paid exactly at balance 0; an
      Active loan always has principal left. */
  lemma EveryRecordInOrder(w: World, id: nat)
    requires Reachable(w) && id in w.book.loans
    ensures
      var l := w.book.loans[id];
      && 0 <= l.lateFees && 0 <= l.interest && 0 <= l.serviceFee && 0 <= l.principal
      && l.remaining == l.lateFees + l.interest + l.serviceFee + l.principal
      && (l.status.Paid? <==> l.remaining == 0)
      && (l.status.Active? ==> l.principal > 0)
  {
    ReachableOk(w);
  }

  /** Right after a loan is created, the borrower's Active balances are within its credit limit. */
  lemma CreationRespectsLimit(w: World, create: Op)
    requires Reachable(w) && create.CallCreateLoan? && Step(w, create).Ok?
    ensures
      var b, score := Step(w, create).value.book, Score(w.scores, create.user);
      Debt(b, create.user) == Total(DebtOf(create.user), b)
      <= (if score >= 90 then 10_000 else if score >= 75 then 5_000 else if score >= 60 then 2_500 else 1_000)
  {
    ReachableOk(w);
    CreateFollows(w, create.user, create.vendor, create.total, create.guarantee,
                  create.schedule, create.loanType, create.ctx);
  }

  // ---------------------------------------------------------------- locked liquidity

  lemma ExposureWithinPrincipal(b: Book)
    requires BookOk(b)
    ensures 0 <= Total(Exposure, b) <= Total(Principal, b)
  {
    SumBounds(Exposure, b.loans, b.counter);
    SumMonotone(Exposure, Principal, b.loans, b.counter);
  }

  lemma {:induction false} NoneActive(loans: map<nat, Loan>, n: nat)
    requires forall i :: i in loans ==> !loans[i].status.Active?
    ensures Sum(Exposure, loans, n) == 0
  {
    if n > 0 {
      NoneActive(loans, n - 1);
    }
  }

  /** The pool never locks more than the Active principal that no guarantee covers, nor more than
      it has; once no loan is Active, nothing stays locked. */
  lemma LockedIsCovered(w: World)
    requires Reachable(w)
    ensures
      var locked := w.vault.pool.lockedLiquidity;
      && 0 <= locked <= w.vault.pool.totalLiquidity
      && locked <= Total(Exposure, w.book) <= Total(Principal, w.book)
      && ((forall id :: id in w.book.loans ==> !w.book.loans[id].status.Active?) ==> locked == 0)
  {
    ReachableOk(w);
    ExposureWithinPrincipal(w.book);
    if forall id :: id in w.book.loans ==> !w.book.loans[id].status.Active? {
      NoneActive(w.book.loans, w.book.counter);
    }
  }

  // ---------------------------------------------------------------- escrow

  /** The credit line always holds the guarantees of all Pending and Active loans. */
  lemma EscrowIsHeld(w: World)
    requires Reachable(w)
    ensures CreditBalance(w) >= Total(Escrowed, w.book) >= 0
  {
    ReachableOk(w);
    SumBounds(Escrowed, w.book.loans, w.book.counter);
  }

  /** So a cancellation is never refused for want of the refund, nor its transfer for want of funds. */
  lemma RefundNeverShort(w: World, caller: Address, id: nat)
    requires Reachable(w)
    ensures Step(w, CallCancelLoan(caller, id)) != Err(InsufficientRefundBalance)
    ensures Step(w, CallCancelLoan(caller, id)) != Err(InsufficientBalance)
  {
    ReachableOk(w);
    if id in w.book.loans {
      SumBounds(Escrowed, w.book.loans, w.book.counter);
      assert Value(Escrowed, w.book.loans[id]) <= Total(Escrowed, w.book);
    }
  }

  /** A call by which nobody sends tokens to the credit line beyond what the protocol itself does. */
  predicate SendsNoGift(c: P.Setup, op: Op) {
    match op
    case CallCreateLoan(_, vendor, _, _, _, _, _) => vendor != c.credit
    case CallRequestLoan(_, vendor, _, _, _, _, _) => vendor != c.credit
    case OutsideTransfer(_, to, _) => to != c.credit
    case _ => true
  }

  ghost predicate VendorsElsewhere(w: World) {
    forall id :: id in w.book.loans ==> w.book.loans[id].vendor != w.setup.credit
  }

  lemma QuietPoolStep(w: World, op: Op)
    requires WorldOk(w) && Step(w, op).Ok? && SendsNoGift(w.setup, op)
    requires op.CallDeposit? || op.CallWithdraw? || op.CallSetOutflowCap? || op.CallSetExposureCap?
             || op.Advance? || op.OutsideTransfer? || op.OutsideScore?
    ensures Surplus(Step(w, op).value) == Surplus(w) && Step(w, op).value.book == w.book
  {
    match op
    case CallDeposit(provider, amount) =>
      PP.DepositEffect(w.setup, w.vault, provider, amount);
      TransferMoves(w.vault.bal, provider, w.setup.pool, amount);
    case CallWithdraw(provider, shares) =>
      PP.WithdrawEffect(w.setup, w.vault, provider, shares);
      TransferMoves(w.vault.bal, w.setup.pool, provider, P.Withdraw(w.setup, w.vault, provider, shares).value.1);
    case OutsideTransfer(from, to, amount) => TransferMoves(w.vault.bal, from, to, amount);
    case _ =>
  }

  lemma QuietLoanStep(w: World, op: Op)
    requires WorldOk(w) && Step(w, op).Ok? && SendsNoGift(w.setup, op) && FeesElsewhere(w.setup) && VendorsElsewhere(w)
    requires !(op.CallDeposit? || op.CallWithdraw? || op.CallSetOutflowCap? || op.CallSetExposureCap?
               || op.Advance? || op.OutsideTransfer? || op.OutsideScore?)
    ensures Surplus(Step(w, op).value) == Surplus(w)
  {
    match op
    case CallCreateLoan(user, vendor, total, guarantee, schedule, loanType, ctx) =>
      CreateFollows(w, user, vendor, total, guarantee, schedule, loanType, ctx);
    case CallRequestLoan(user, vendor, total, guarantee, schedule, loanType, ctx) =>
      RequestFollows(w, user, vendor, total, guarantee, schedule, loanType, ctx);
    case CallApproveLoan(caller, id, ctx) => ApproveFollows(w, caller, id, ctx);
    case CallCancelLoan(caller, id) => CancelFollows(w, caller, id);
    case CallRepayLoan(borrower, id, amount) => RepayFollows(w, borrower, id, amount);
    case CallRepayInstallment(borrower, id, i, amount) => InstallmentFollows(w, borrower, id, i, amount);
    case CallApplyLateFees(id) => LateFeesFollow(w, id);
    case CallMarkDefaulted(id, params) => DefaultFollows(w, id, params);
    case _ =>
  }

  lemma PaymentsEnterNothing(w: World, op: Op)
    requires Step(w, op).Ok? && (op.CallRepayLoan? || op.CallRepayInstallment?)
    ensures Step(w, op).value.book.counter == w.book.counter && Step(w, op).value.setup == w.setup
  {
    hide Accrue, Pay, MovePayment;
  }

  lemma OthersEnterNothing(w: World, op: Op)
    requires Step(w, op).Ok? && !op.CallCreateLoan? && !op.CallRequestLoan?
    ensures Step(w, op).value.book.counter == w.book.counter && Step(w, op).value.setup == w.setup
  {
    if op.CallRepayLoan? || op.CallRepayInstallment? {
      PaymentsEnterNothing(w, op);
    }
  }

  lemma NewVendor(w: World, op: Op)
    requires WorldOk(w) && Step(w, op).Ok? && SendsNoGift(w.setup, op) && VendorsElsewhere(w)
    ensures VendorsElsewhere(Step(w, op).value)
  {
    hide LoanOk, CreateLoan, RequestLoan, ApproveLoan, CancelLoan;
    hide RepayLoan, RepayInstallment, ApplyLateFees, MarkDefaulted;
    StepIsBookStep(w, op);
    if op.CallCreateLoan? {
      var _, _ := CreateParts(w, op.user, op.vendor, op.total, op.guarantee, op.schedule, op.loanType, op.ctx);
    } else if op.CallRequestLoan? {
      var _ := RequestParts(w, op.user, op.vendor, op.total, op.guarantee, op.schedule, op.loanType, op.ctx);
    } else {
      OthersEnterNothing(w, op);
    }
    assert forall id :: id in w.book.loans ==> Lifecycle(w.book.loans[id], Step(w, op).value.book.loans[id]);
  }

  /** Absent transfers from outside, what the credit line holds beyond the guarantees in escrow
      never changes: every guarantee pulled in is held until it is released, and no other token
      stays. */
  lemma {:induction false} EscrowIsConserved(w: World, ops: seq<Op>)
    requires AllOk(w) && FeesElsewhere(w.setup) && VendorsElsewhere(w)
    requires forall i :: 0 <= i < |ops| ==> SendsNoGift(w.setup, ops[i])
    ensures Surplus(Run(w, ops)) == Surplus(w) && VendorsElsewhere(Run(w, ops))
  {
    if ops != [] {
      var front, op := ops[..|ops| - 1], ops[|ops| - 1];
      EscrowIsConserved(w, front);
      RunFollows(w, front);
      QuietApply(Run(w, front), op);
    }
  }

  lemma QuietApply(w: World, op: Op)
    requires AllOk(w) && FeesElsewhere(w.setup) && VendorsElsewhere(w) && SendsNoGift(w.setup, op)
    ensures Surplus(Apply(w, op)) == Surplus(w) && VendorsElsewhere(Apply(w, op))
  {
    if Step(w, op).Ok? {
      NewVendor(w, op);
      if op.CallDeposit? || op.CallWithdraw? || op.CallSetOutflowCap? || op.CallSetExposureCap?
         || op.Advance? || op.OutsideTransfer? || op.OutsideScore? {
        QuietPoolStep(w, op);
      } else {
        QuietLoanStep(w, op);
      }
    }
  }
}
