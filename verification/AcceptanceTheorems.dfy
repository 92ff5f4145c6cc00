/** When repayments and defaults go through, in terms of what a caller can look up beforehand. */
module AcceptanceTheorems {
  import opened Common
  import opened Token
  import opened LoanModel
  import opened ProtocolModel
  import opened Reputation
  import opened BookProofs
  import opened ProtocolProofs
  import opened LifecycleProofs
  import P = PoolModel
  import PP = PoolProofs
  import LP = LoanProofs
  import LT = LendingTheorems

  // Amounts up to 2^96: far beyond any token supply, and small enough for 128-bit products.
  const AMPLE: int := 0x1_0000_0000_0000_0000_0000_0000

  /** Every account holds between nothing and `limit`. */
  ghost predicate Holdings(bal: Balances, limit: int) {
    forall a {:trigger Bal(bal, a)} :: 0 <= Bal(bal, a) <= limit
  }

  // ---------------------------------------------------------------- moving a payment

  /** Paying a fee of at most `limit` out of a pool that holds it is never refused. */
  lemma FeeAccepted(c: P.Setup, bal: Balances, to: Option<Address>, amount: int, limit: int)
    requires 0 <= amount <= Bal(bal, c.pool) && Holdings(bal, limit) && 0 <= limit <= 4 * AMPLE
    ensures P.PayFee(c, bal, to, amount).Ok?
    ensures Holdings(P.PayFee(c, bal, to, amount).value, 2 * limit)
    ensures Bal(P.PayFee(c, bal, to, amount).value, c.pool) >= Bal(bal, c.pool) - amount
  {
    if amount > 0 && to.Some? {
      TransferAccepted(bal, c.pool, to.value, amount);
      TransferMoves(bal, c.pool, to.value, amount);
    }
  }

  lemma SplitAccepted(c: P.Setup, v: P.Vault, interest: int)
    requires 0 < interest <= AMPLE && interest <= Bal(v.bal, c.pool) && Holdings(v.bal, 2 * AMPLE)
    requires 0 <= v.pool.totalLiquidity <= AMPLE
    ensures P.SplitInterest(c, v, interest).Ok?
  {
    PP.CutsAddUp(c, interest);
    FeeAccepted(c, v.bal, c.treasury, P.ProtocolCut(interest), 2 * AMPLE);
    FeeAccepted(c, P.PayFee(c, v.bal, c.treasury, P.ProtocolCut(interest)).value, c.merchantFund,
                interest - P.LpCut(interest) - P.ProtocolCut(interest), 4 * AMPLE);
  }

  lemma ReceivingAccepted(c: P.Setup, v: P.Vault, principal: int, interest: int)
    requires c.pool != c.credit && 0 <= principal && 0 <= interest && 0 < principal + interest <= AMPLE
    requires principal + interest <= Bal(v.bal, c.credit) && (forall a {:trigger Bal(v.bal, a)} :: 0 <= Bal(v.bal, a))
    requires forall a {:trigger Bal(v.bal, a)} :: Bal(v.bal, a) <= AMPLE + if a == c.credit then AMPLE else 0
    requires 0 <= v.pool.lockedLiquidity <= v.pool.totalLiquidity <= AMPLE
    ensures P.ReceiveRepayment(c, v, principal, interest).Ok?
  {
    hide P.SplitInterest;
    TransferAccepted(v.bal, c.credit, c.pool, principal + interest);
    TransferMoves(v.bal, c.credit, c.pool, principal + interest);
    if interest > 0 {
      var bal := Transfer(v.bal, c.credit, c.pool, principal + interest).value;
      SplitAccepted(c, P.Vault(v.pool.(lockedLiquidity := Max(0, v.pool.lockedLiquidity - principal)), bal), interest);
    }
  }

  /** A payment reaches the pool exactly if the borrower holds it. */
  lemma ForwardAcceptedIff(c: P.Setup, v: P.Vault, from: Address, principal: int, interest: int)
    requires c.pool != c.credit && Signs(c, from)
    requires 0 <= principal && 0 <= interest && 0 < principal + interest <= AMPLE && Holdings(v.bal, AMPLE)
    requires 0 <= v.pool.lockedLiquidity <= v.pool.totalLiquidity <= AMPLE
    ensures Forward(c, v, from, principal + interest, principal, interest).Ok?
       <==> Bal(v.bal, from) >= principal + interest
  {
    hide P.ReceiveRepayment;
    TransferAccepted(v.bal, from, c.credit, principal + interest);
    if Bal(v.bal, from) >= principal + interest {
      TransferMoves(v.bal, from, c.credit, principal + interest);
      ReceivingAccepted(c, v.(bal := Transfer(v.bal, from, c.credit, principal + interest).value), principal, interest);
    }
  }

  /** So does the refund of a guarantee that the credit line holds in escrow. */
  lemma MovingAcceptedIff(c: P.Setup, v: P.Vault, l: Loan, amount: int, paid: Loan)
    requires c.pool != c.credit && PP.PoolOk(v.pool) && Signs(c, l.borrower) && LoanOk(l)
    requires 0 < amount <= l.remaining && amount <= AMPLE && Holdings(v.bal, AMPLE)
    requires v.pool.totalLiquidity <= AMPLE && l.guarantee <= Bal(v.bal, c.credit)
    ensures MovePayment(c, v, l, amount, paid).Ok? <==> Bal(v.bal, l.borrower) >= amount
  {
    hide Forward, PP.FeesTo, PP.FeesOut;
    var a := Split(l, amount);
    LP.WaterfallIsTheOnlyPriorityOrder(l, amount, a);
    ForwardAcceptedIff(c, v, l.borrower, a.principal, FeePart(a));
    if Bal(v.bal, l.borrower) >= amount {
      ForwardEffect(c, v, l.borrower, a.principal, FeePart(a));
      PP.CutsAddUp(c, FeePart(a));
      FeesBounded(c, FeePart(a), c.credit);
      FeesBounded(c, FeePart(a), l.borrower);
      var v1 := Forward(c, v, l.borrower, amount, a.principal, FeePart(a)).value;
      TransferAccepted(v1.bal, c.credit, l.borrower, l.guarantee);
    }
  }

  lemma FeesBounded(c: P.Setup, interest: int, a: Address)
    requires interest >= 0
    ensures 0 <= PP.FeesTo(c, interest, a) <= interest
  {
    PP.CutsAddUp(c, interest);
  }

  // ---------------------------------------------------------------- repayments

  /** Balances, liquidity and the borrower's debt are small enough that nothing overflows. */
  ghost predicate Ample(w: World, borrower: Address) {
    Holdings(w.vault.bal, AMPLE) && w.vault.pool.totalLiquidity <= AMPLE && Debt(w.book, borrower) <= AMPLE
  }

  /** What loan `id` owes with the late fees due now; its fees can be computed. */
  predicate Quotable(w: World, id: nat) {
    id in w.book.loans ==>
      Accrue(w.book.loans[id], w.now).Ok? && Accrue(w.book.loans[id], w.now).value.loan.remaining <= AMPLE
  }

  function Due(w: World, id: nat): int
    requires id in w.book.loans && Quotable(w, id)
  {
    Accrue(w.book.loans[id], w.now).value.loan.remaining
  }

  /** What a borrower can check before paying: the loan is an Active one of theirs, the amount is
      owed and at hand, and, to settle the loan, the reward still fits their score. */
  predicate Payable(w: World, borrower: Address, id: nat, amount: int)
    requires Quotable(w, id)
  {
    && id in w.book.loans && w.book.loans[id].borrower == borrower && w.book.loans[id].status.Active?
    && 0 < amount <= Due(w, id) && amount <= Bal(w.vault.bal, borrower)
    && (amount == Due(w, id) ==>
          Score(w.scores, borrower) + LT.Points(w.book.loans[id].schedule, w.now) <= 100)
  }

  /** The loan's guarantee is in escrow, and its debt on the borrower's account. */
  lemma HeldForLoan(w: World, id: nat)
    requires WorldOk(w) && id in w.book.loans && w.book.loans[id].status.Active?
    ensures
      var l := w.book.loans[id];
      && LoanOk(l) && l.id == id && Signs(w.setup, l.borrower)
      && l.guarantee <= CreditBalance(w) && l.remaining <= Debt(w.book, l.borrower)
  {
    var l := w.book.loans[id];
    SumBounds(Escrowed, w.book.loans, w.book.counter);
    SumBounds(DebtOf(l.borrower), w.book.loans, w.book.counter);
    assert Value(Escrowed, l) <= Total(Escrowed, w.book);
    assert Value(DebtOf(l.borrower), l) <= Total(DebtOf(l.borrower), w.book);
    assert Debt(w.book, l.borrower) == Total(DebtOf(l.borrower), w.book);
  }

  /** Settling up is refused only for want of the amount or, at the end, of room for the reward. */
  lemma SettlingAcceptedIff(w: World, book: Book, due: Loan, amount: int, paid: Loan)
    requires w.setup.pool != w.setup.credit && PP.PoolOk(w.vault.pool) && Ample(w, due.borrower)
    requires LoanOk(due) && due.id in book.loans && Signs(w.setup, due.borrower)
    requires 0 < amount <= due.remaining <= AMPLE && due.guarantee <= CreditBalance(w)
    requires 0 <= Debt(book, due.borrower) <= 2 * AMPLE
    requires paid.id == due.id && (paid.status.Paid? <==> amount == due.remaining)
    ensures Settle(w.(book := book), due, amount, paid).Ok?
       <==> && amount <= Bal(w.vault.bal, due.borrower)
            && (amount == due.remaining ==>
                  Score(w.scores, due.borrower) + LT.Points(due.schedule, w.now) <= 100)
  {
    LT.RewardInPoints(due, w.now);
    hide MovePayment, LoanOk, PP.PoolOk;
    MovingAcceptedIff(w.setup, w.vault, due, amount, paid);
  }

  lemma DueRecord(w: World, id: nat)
    requires WorldOk(w) && id in w.book.loans && w.book.loans[id].status.Active? && Quotable(w, id)
    requires Ample(w, w.book.loans[id].borrower)
    ensures
      var l := w.book.loans[id];
      var a := Accrue(l, w.now).value;
      var booked := BookFee(w.book, l.borrower, a.fee);
      && LoanOk(a.loan) && a.loan.status.Active? && a.loan.id == id && a.loan.borrower == l.borrower
      && a.loan.guarantee == l.guarantee && a.loan.schedule == l.schedule
      && booked.Ok? && booked.value.loans == w.book.loans
      && 0 <= Debt(booked.value, l.borrower) <= 2 * AMPLE
  {
    var l := w.book.loans[id];
    HeldForLoan(w, id);
    LP.AccrueKeepsLoan(l, w.now);
  }

  /** A repayment is accepted exactly if it is payable. */
  lemma RepaymentAcceptedIff(w: World, borrower: Address, id: nat, amount: int)
    requires WorldOk(w) && Ample(w, borrower) && Quotable(w, id)
    ensures RepayLoan(w, borrower, id, amount).Ok? <==> Payable(w, borrower, id, amount)
  {
    hide Accrue, Settle, BookFee, WorldOk, Holdings;
    if id in w.book.loans && w.book.loans[id].borrower == borrower && w.book.loans[id].status.Active? {
      HeldForLoan(w, id);
      DueRecord(w, id);
      if 0 < amount <= Due(w, id) {
        var a := Accrue(w.book.loans[id], w.now).value;
        LP.PayKeepsLoan(a.loan, amount);
        WorldParts(w);
        SettlingAcceptedIff(w, BookFee(w.book, borrower, a.fee).value, a.loan, amount, Pay(a.loan, amount));
      }
    }
  }

  lemma WorldParts(w: World)
    requires WorldOk(w)
    ensures w.setup.pool != w.setup.credit && PP.PoolOk(w.vault.pool) && w.now <= U64_MAX
  {
  }

  /** A repayment of an installment likewise, if it names an installment not yet paid. */
  lemma InstallmentAcceptedIff(w: World, borrower: Address, id: nat, i: nat, amount: int)
    requires WorldOk(w) && Ample(w, borrower) && Quotable(w, id)
    ensures RepayInstallment(w, borrower, id, i, amount).Ok?
       <==> && Payable(w, borrower, id, amount)
            && i < |w.book.loans[id].schedule| && !w.book.loans[id].schedule[i].paid
  {
    hide Accrue, Settle, BookFee, WorldOk, Holdings;
    if id in w.book.loans && w.book.loans[id].borrower == borrower && w.book.loans[id].status.Active? {
      HeldForLoan(w, id);
      DueRecord(w, id);
      if 0 < amount <= Due(w, id) {
        var a := Accrue(w.book.loans[id], w.now).value;
        var paid := Pay(a.loan, amount);
        LP.PayKeepsLoan(a.loan, amount);
        WorldParts(w);
        SettlingAcceptedIff(w, BookFee(w.book, borrower, a.fee).value, a.loan, amount,
                            paid.(schedule := MarkPaid(paid.schedule, i, w.now)));
      }
    }
  }

  /** Whatever the width of the amounts: a payment that settles a loan is accepted only if the
      reward fits the score, so never from a borrower above 90 points. */
  lemma PayoffNeedsHeadroom(w: World, op: Op)
    requires BookOk(w.book) && (op.CallRepayLoan? || op.CallRepayInstallment?) && LT.Settles(w, op.id, op.amount)
    ensures Step(w, op).Ok? ==>
              Score(w.scores, op.borrower) + LT.Points(w.book.loans[op.id].schedule, w.now) <= 100
    ensures Score(w.scores, op.borrower) > 90 ==> Step(w, op).Err?
  {
    hide MovePayment, WriteOff, BookOk;
    var l := w.book.loans[op.id];
    AccrueShape(l, w.now);
  }

  // ---------------------------------------------------------------- defaults

  /** Taking a forfeited guarantee that is in escrow is never refused. */
  lemma ForfeitAccepted(c: P.Setup, v: P.Vault, l: Loan)
    requires c.pool != c.credit && PP.PoolOk(v.pool) && LoanOk(l) && Holdings(v.bal, AMPLE)
    requires v.pool.totalLiquidity <= AMPLE && l.guarantee <= Bal(v.bal, c.credit)
    ensures Forfeit(c, v, l).Ok?
  {
    TransferAccepted(v.bal, c.credit, c.pool, l.guarantee);
  }

  /** What anyone can check before marking a loan defaulted: it is Active, its schedule has ended,
      the grace period is over, and its borrower has the points the penalty takes. */
  predicate Defaultable(w: World, id: nat, params: Params) {
    && id in w.book.loans && w.book.loans[id].status.Active? && w.book.loans[id].schedule != []
    && w.book.loans[id].schedule[|w.book.loans[id].schedule| - 1].dueDate + params.gracePeriod < w.now
    && (w.book.loans[id].total <= params.largeLoanThreshold ==>
          params.defaultPenalty <= Score(w.scores, w.book.loans[id].borrower))
    && (w.book.loans[id].total > params.largeLoanThreshold ==>
          params.largeLoanDefaultPenalty <= Score(w.scores, w.book.loans[id].borrower))
  }

  /** A default is accepted exactly if the loan is defaultable. */
  lemma DefaultAcceptedIff(w: World, id: nat, params: Params)
    requires WorldOk(w) && (id in w.book.loans ==> Ample(w, w.book.loans[id].borrower))
    ensures MarkDefaulted(w, id, params).Ok? <==> Defaultable(w, id, params)
  {
    hide Forfeit, WorldOk;
    WorldParts(w);
    if id in w.book.loans && w.book.loans[id].status.Active? {
      HeldForLoan(w, id);
      ForfeitAccepted(w.setup, w.vault, w.book.loans[id]);
    }
  }
}
