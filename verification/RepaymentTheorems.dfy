/** Splitting a repayment: several accepted calls at one timestamp against one call. */
module RepaymentTheorems {
  import opened Common
  import opened LoanModel
  import opened ProtocolModel
  import opened ProtocolProofs
  import opened LifecycleProofs
  import opened Reputation
  import opened Token
  import AT = AcceptanceTheorems
  import GT = GuaranteeTheorems
  import LP = LoanProofs
  import LT = LendingTheorems
  import P = PoolModel
  import PP = PoolProofs

  /** Accepted `repay_loan` calls, one after another; no time passes between them. */
  function RepayInParts(w: World, borrower: Address, id: nat, amounts: seq<int>): Result<World> {
    if amounts == [] then Ok(w)
    else
      var before :- RepayInParts(w, borrower, id, amounts[..|amounts| - 1]);
      RepayLoan(before, borrower, id, amounts[|amounts| - 1])
  }

  /** `w'` is `w` with loan `id` as the accrual `r` leaves it and `amount` off the debt. */
  predicate RepaidTo(w: World, w': World, borrower: Address, id: nat, r: Accrual, amount: int) {
    && id in w.book.loans && w.book.loans[id].status.Active? && w'.now == w.now
    && w'.book.loans == w.book.loans[id := r.loan]
    && Debt(w'.book, borrower) == Debt(w.book, borrower) + r.fee - amount
  }

  lemma RepayRecord(w: World, borrower: Address, id: nat, amount: int)
    requires WorldOk(w) && RepayLoan(w, borrower, id, amount).Ok?
    ensures
      var w' := RepayLoan(w, borrower, id, amount).value;
      var r := Repay(w.book.loans[id], w.now, amount);
      WorldOk(w') && r.Ok? && RepaidTo(w, w', borrower, id, r.value, amount)
  {
    var l := w.book.loans[id];
    var a := Accrue(l, w.now).value;
    AccrueShape(l, w.now);
    LP.AccrueKeepsLoan(l, w.now);
    SettleParts(w, BookFee(w.book, borrower, a.fee).value, a.loan, amount, Pay(a.loan, amount),
                RepayLoan(w, borrower, id, amount).value);
    RepayFollows(w, borrower, id, amount);
  }

  lemma OnePartMore(w: World, b: World, b': World, borrower: Address, id: nat,
                    acc: Accrual, sum: int, r: Accrual, last: int)
    requires RepaidTo(w, b, borrower, id, acc, sum) && RepaidTo(b, b', borrower, id, r, last)
    ensures RepaidTo(w, b', borrower, id, Accrual(r.loan, acc.fee + r.fee, acc.days + r.days), sum + last)
    ensures acc.loan.status.Active?
  {
  }

  lemma {:induction false} PartsAddUp(w: World, borrower: Address, id: nat, amounts: seq<int>)
    requires WorldOk(w) && amounts != [] && RepayInParts(w, borrower, id, amounts).Ok?
    ensures
      var w' := RepayInParts(w, borrower, id, amounts).value;
      && WorldOk(w') && id in w.book.loans && LP.RepayAll(w.book.loans[id], w.now, amounts).Ok?
      && RepaidTo(w, w', borrower, id, LP.RepayAll(w.book.loans[id], w.now, amounts).value, SumSeq(amounts))
  {
    var front, last := amounts[..|amounts| - 1], amounts[|amounts| - 1];
    if front == [] {
      assert SumSeq(front) == 0;
      RepayRecord(w, borrower, id, last);
    } else {
      PartsAddUp(w, borrower, id, front);
      var b := RepayInParts(w, borrower, id, front).value;
      var acc := LP.RepayAll(w.book.loans[id], w.now, front).value;
      RepayRecord(b, borrower, id, last);
      OnePartMore(w, b, RepayLoan(b, borrower, id, last).value, borrower, id,
                  acc, SumSeq(front), Repay(acc.loan, w.now, last).value, last);
    }
  }

  /** However a repayment is split, the loan's buckets, balance, cursor and status and the
      borrower's debt end up as after a single payment of the sum. */
  lemma SplittingIsNeutral(w: World, borrower: Address, id: nat, amounts: seq<int>)
    requires WorldOk(w) && amounts != [] && RepayInParts(w, borrower, id, amounts).Ok?
    ensures id in w.book.loans
    ensures
      var once := Repay(w.book.loans[id], w.now, SumSeq(amounts));
      once.Ok? && RepaidTo(w, RepayInParts(w, borrower, id, amounts).value, borrower, id, once.value, SumSeq(amounts))
  {
    PartsAddUp(w, borrower, id, amounts);
    LP.SplittingIsNeutral(w.book.loans[id], w.now, amounts);
  }

  // ---------------------------------------------------------------- parts against one payment

  /** What loan `id` owes with its late fees, as a record. */
  function DueLoan(w: World, id: nat): Loan
    requires id in w.book.loans && Accrue(w.book.loans[id], w.now).Ok?
  {
    Accrue(w.book.loans[id], w.now).value.loan
  }

  /** The pool after a repayment in `n` payments: exactly the principal unlocked, and the
      providers' cut of the fees but for less than a unit a payment. */
  predicate PoolRepaid(p: P.Pool, p': P.Pool, a: Allocation, n: nat) {
    && p' == p.(lockedLiquidity := Max(0, p.lockedLiquidity - a.principal), totalLiquidity := p'.totalLiquidity)
    && P.LpCut(FeePart(a)) - (n - 1) <= p'.totalLiquidity - p.totalLiquidity <= P.LpCut(FeePart(a))
  }

  /** The borrower's tokens after it: the amount less, the guarantee back if it settled the loan. */
  predicate TokensPaid(w: World, w': World, borrower: Address, due: Loan, amount: int) {
    && amount <= Bal(w.vault.bal, borrower)
    && Bal(w'.vault.bal, borrower)
       == Bal(w.vault.bal, borrower) - amount + (if amount == due.remaining then due.guarantee else 0)
  }

  /** Whoever pays a loan does not also receive the pool's fees. */
  predicate PaysOnly(c: P.Setup, a: Address) {
    c.treasury != Some(a) && c.merchantFund != Some(a)
  }

  lemma OnePayment(w: World, borrower: Address, id: nat, amount: int, w': World)
    requires WorldOk(w) && RepayLoan(w, borrower, id, amount) == Ok(w')
    ensures id in w.book.loans && Accrue(w.book.loans[id], w.now).Ok?
    ensures 0 < amount <= DueLoan(w, id).remaining && LoanOk(DueLoan(w, id)) && DueLoan(w, id).status.Active?
    ensures PoolRepaid(w.vault.pool, w'.vault.pool, Split(DueLoan(w, id), amount), 1)
    ensures PaysOnly(w.setup, borrower) ==> TokensPaid(w, w', borrower, DueLoan(w, id), amount)
  {
    hide RepayLoan, Accrue, MovePayment, LoanOk, PP.PoolOk;
    var op := CallRepayLoan(borrower, id, amount);
    GT.PaymentParts(w, op, w');
    var due := DueLoan(w, id);
    LP.PayKeepsLoan(due, amount);
    PaymentMoney(w.setup, w.vault, due, amount, GT.LeftOver(w, op), w'.vault);
    PaymentAtHand(w.setup, w.vault, due, amount, GT.LeftOver(w, op));
  }

  lemma PaymentAtHand(c: P.Setup, v: P.Vault, l: Loan, amount: int, paid: Loan)
    requires MovePayment(c, v, l, amount, paid).Ok?
    ensures amount <= Bal(v.bal, l.borrower)
  {
    hide P.ReceiveRepayment;
  }

  lemma PoolOfTwo(p: P.Pool, b: P.Pool, p': P.Pool, l: Loan, first: int, last: int, n: nat)
    requires LoanOk(l) && l.status.Active? && 0 < first < l.remaining && 0 < last <= l.remaining - first && n >= 1
    requires PoolRepaid(p, b, Split(l, first), n) && PoolRepaid(b, p', Split(Pay(l, first), last), 1)
    ensures PoolRepaid(p, p', Split(l, first + last), n + 1)
  {
    hide LoanOk, Split, P.LpCut, Pay;
    LP.SplitTwice(l, first, last);
    PP.CutOfSum(FeePart(Split(l, first)), FeePart(Split(Pay(l, first), last)));
  }

  /** A payment that does not settle the loan leaves it owing exactly the rest. */
  lemma DueAfterPart(l: Loan, now: nat, first: int)
    requires LoanOk(l) && l.status.Active? && Repay(l, now, first).Ok? && Repay(l, now, first).value.loan.status.Active?
    ensures
      var due, left := Accrue(l, now).value.loan, Repay(l, now, first).value.loan;
      && 0 < first < due.remaining && left == Pay(due, first) && left.remaining == due.remaining - first
      && LoanOk(due) && due.status.Active? && left.guarantee == due.guarantee
      && Accrue(left, now) == Ok(Accrual(left, 0, 0))
  {
    LP.AccrueKeepsLoan(l, now);
    LP.PayKeepsLoan(Accrue(l, now).value.loan, first);
    LP.SecondAccrualChargesNothing(l, now, Repay(l, now, first).value.loan);
  }

  /** What the payment of `amount` earns the borrower when `due` is owed. */
  function Earned(w: World, borrower: Address, id: nat, amount: int, who: Address): nat
    requires id in w.book.loans && Accrue(w.book.loans[id], w.now).Ok?
  {
    if who == borrower && amount == DueLoan(w, id).remaining then Reward(w.now, w.book.loans[id]) else 0
  }

  lemma OneEarns(w: World, borrower: Address, id: nat, amount: int, w': World, who: Address)
    requires RepayLoan(w, borrower, id, amount) == Ok(w') && id in w.book.loans && Accrue(w.book.loans[id], w.now).Ok?
    ensures Score(w'.scores, who) == Score(w.scores, who) + Earned(w, borrower, id, amount, who)
  {
    hide RepayLoan, Accrue;
    LT.PaymentEarns(w, CallRepayLoan(borrower, id, amount), who);
  }

  /** Where a world stands after part of a repayment: in order, and owing exactly the rest. */
  lemma AfterFront(w: World, borrower: Address, id: nat, front: seq<int>, b: World, last: int, w': World)
    requires WorldOk(w) && front != [] && RepayInParts(w, borrower, id, front) == Ok(b)
    requires RepayLoan(b, borrower, id, last) == Ok(w')
    ensures WorldOk(b) && id in w.book.loans && Accrue(w.book.loans[id], w.now).Ok?
    ensures id in b.book.loans && Accrue(b.book.loans[id], b.now).Ok? && b.now == w.now
    ensures
      var due, left := DueLoan(w, id), DueLoan(b, id);
      && LoanOk(due) && due.status.Active? && 0 < SumSeq(front) < due.remaining && left == Pay(due, SumSeq(front))
      && left.remaining == due.remaining - SumSeq(front) && left.guarantee == due.guarantee
      && LastDue(b.book.loans[id]) == LastDue(w.book.loans[id])
  {
    hide WorldOk, Accrue, RepayInParts, SumSeq;
    PartsAddUp(w, borrower, id, front);
    RecordOk(w, id);
    LP.SplittingIsNeutral(w.book.loans[id], w.now, front);
    OneIsOwn(b, borrower, id, last);
    DueAfterPart(w.book.loans[id], w.now, SumSeq(front));
    AccrueShape(w.book.loans[id], w.now);
  }

  lemma RecordOk(w: World, id: nat)
    requires WorldOk(w) && id in w.book.loans
    ensures LoanOk(w.book.loans[id])
  {
  }

  /** What a repayment in parts does to the pool, to the borrower's tokens and to scores. */
  lemma {:induction false} PartsPay(w: World, borrower: Address, id: nat, amounts: seq<int>, who: Address)
    requires WorldOk(w) && amounts != [] && RepayInParts(w, borrower, id, amounts).Ok?
    ensures id in w.book.loans && Accrue(w.book.loans[id], w.now).Ok?
    ensures
      var w', due := RepayInParts(w, borrower, id, amounts).value, DueLoan(w, id);
      && w'.setup == w.setup
      && PoolRepaid(w.vault.pool, w'.vault.pool, Split(due, SumSeq(amounts)), |amounts|)
      && (PaysOnly(w.setup, borrower) ==> TokensPaid(w, w', borrower, due, SumSeq(amounts)))
      && Score(w'.scores, who) == Score(w.scores, who) + Earned(w, borrower, id, SumSeq(amounts), who)
  {
    hide WorldOk, RepayLoan, Accrue, PoolRepaid, LoanOk, Split, Pay;
    var front, last := amounts[..|amounts| - 1], amounts[|amounts| - 1];
    var w' := RepayInParts(w, borrower, id, amounts).value;
    if front == [] {
      assert SumSeq(front) == 0;
      OnePayment(w, borrower, id, last, w');
      OneEarns(w, borrower, id, last, w', who);
      SetupStays(w, borrower, id, last, w');
    } else {
      PartsPay(w, borrower, id, front, who);
      var b := RepayInParts(w, borrower, id, front).value;
      AfterFront(w, borrower, id, front, b, last, w');
      OnePayment(b, borrower, id, last, w');
      OneEarns(b, borrower, id, last, w', who);
      SetupStays(b, borrower, id, last, w');
      PoolOfTwo(w.vault.pool, b.vault.pool, w'.vault.pool, DueLoan(w, id), SumSeq(front), last, |front|);
    }
  }

  lemma SetupStays(w: World, borrower: Address, id: nat, amount: int, w': World)
    requires RepayLoan(w, borrower, id, amount) == Ok(w')
    ensures w'.setup == w.setup
  {
    hide Accrue, MovePayment;
  }

  /** Against one payment of the sum: the same records, debt, scores, shares and locked liquidity.
      Only the providers' cut is rounded once instead of every time, which makes less than a unit a
      payment. */
  lemma PartsAgainstOnce(w: World, borrower: Address, id: nat, amounts: seq<int>, who: Address)
    requires WorldOk(w) && amounts != [] && RepayInParts(w, borrower, id, amounts).Ok?
    requires RepayLoan(w, borrower, id, SumSeq(amounts)).Ok?
    ensures
      var parts := RepayInParts(w, borrower, id, amounts).value;
      var once := RepayLoan(w, borrower, id, SumSeq(amounts)).value;
      && parts.book.loans == once.book.loans && Debt(parts.book, borrower) == Debt(once.book, borrower)
      && Score(parts.scores, who) == Score(once.scores, who)
      && parts.vault.pool == once.vault.pool.(totalLiquidity := parts.vault.pool.totalLiquidity)
      && 0 <= once.vault.pool.totalLiquidity - parts.vault.pool.totalLiquidity < |amounts|
  {
    hide WorldOk, RepayLoan, Accrue, LoanOk, Split, RepayInParts, SumSeq, P.LpCut;
    var once := RepayLoan(w, borrower, id, SumSeq(amounts)).value;
    SplittingIsNeutral(w, borrower, id, amounts);
    RepayRecord(w, borrower, id, SumSeq(amounts));
    PartsPay(w, borrower, id, amounts, who);
    OnePayment(w, borrower, id, SumSeq(amounts), once);
    OneEarns(w, borrower, id, SumSeq(amounts), once, who);
  }

  /** And that one payment would have been accepted, within the width of the amounts and from a
      borrower who does not receive the pool's fees in between. */
  lemma OnceIsAccepted(w: World, borrower: Address, id: nat, amounts: seq<int>)
    requires WorldOk(w) && amounts != [] && RepayInParts(w, borrower, id, amounts).Ok?
    requires AT.Ample(w, borrower) && AT.Quotable(w, id) && PaysOnly(w.setup, borrower)
    ensures RepayLoan(w, borrower, id, SumSeq(amounts)).Ok?
  {
    hide WorldOk, RepayLoan, Accrue, RepayInParts, SumSeq, AT.Ample;
    var w' := RepayInParts(w, borrower, id, amounts).value;
    PartsPay(w, borrower, id, amounts, borrower);
    PartsAddUp(w, borrower, id, amounts);
    SplittingIsNeutral(w, borrower, id, amounts);
    PartsBorrower(w, borrower, id, amounts);
    ScoresBounded(w', borrower);
    AT.RepaymentAcceptedIff(w, borrower, id, SumSeq(amounts));
  }

  lemma ScoresBounded(w: World, a: Address)
    requires WorldOk(w)
    ensures Score(w.scores, a) <= MAX_SCORE
  {
  }

  lemma {:induction false} PartsBorrower(w: World, borrower: Address, id: nat, amounts: seq<int>)
    requires amounts != [] && RepayInParts(w, borrower, id, amounts).Ok?
    ensures id in w.book.loans && w.book.loans[id].borrower == borrower && w.book.loans[id].status.Active?
  {
    hide RepayLoan;
    var front := amounts[..|amounts| - 1];
    if front == [] {
      OneIsOwn(w, borrower, id, amounts[0]);
    } else {
      PartsBorrower(w, borrower, id, front);
    }
  }

  lemma OneIsOwn(w: World, borrower: Address, id: nat, amount: int)
    requires RepayLoan(w, borrower, id, amount).Ok?
    ensures id in w.book.loans && w.book.loans[id].borrower == borrower && w.book.loans[id].status.Active?
  {
    hide Accrue, Settle;
  }
}
