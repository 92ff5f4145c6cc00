/** What a borrower agreed to never changes, and each installment is paid at most once. */
module InstallmentTheorems {
  import opened Common
  import opened Token
  import opened LoanModel
  import opened ProtocolModel
  import opened Reputation
  import opened BookProofs
  import opened LifecycleProofs
  import opened ProtocolRuns

  /** The same agreement: price, rate, fees, dates and installments, paid or not. */
  predicate SameDeal(l: Loan, l': Loan) {
    && l'.total == l.total && l'.guarantee == l.guarantee && l'.rateBps == l.rateBps
    && l'.interestAmount == l.interestAmount && l'.serviceFeeAmount == l.serviceFeeAmount
    && l'.loanType == l.loanType && l'.createdAt == l.createdAt
    && |l'.schedule| == |l.schedule|
    && forall i :: 0 <= i < |l.schedule| ==>
         l'.schedule[i].dueDate == l.schedule[i].dueDate && l'.schedule[i].amount == l.schedule[i].amount
  }

  /** Installment `i` of `s` is paid at `now` in `s'`, and nothing else is different. */
  predicate PaidAt(s: seq<Installment>, s': seq<Installment>, i: nat, now: nat) {
    && i < |s| == |s'|
    && !s[i].paid && s'[i].paid && s'[i].paidAt == now
    && s'[i].dueDate == s[i].dueDate && s'[i].amount == s[i].amount
    && forall j :: 0 <= j < |s| && j != i ==> s'[j] == s[j]
  }

  lemma InstallmentFound(w: World, borrower: Address, id: nat, i: nat, amount: int)
    requires RepayInstallment(w, borrower, id, i, amount).Ok?
    ensures id in w.book.loans && i < |w.book.loans[id].schedule| && !w.book.loans[id].schedule[i].paid
  {
    hide Accrue, Settle, Pay, BookFee;
  }

  /** Paying an installment marks that installment of that loan paid now, and no other. */
  lemma InstallmentIsMarkedPaid(w: World, borrower: Address, id: nat, i: nat, amount: int)
    requires BookOk(w.book) && Step(w, CallRepayInstallment(borrower, id, i, amount)).Ok?
    ensures id in w.book.loans && id in Step(w, CallRepayInstallment(borrower, id, i, amount)).value.book.loans
    ensures
      var b' := Step(w, CallRepayInstallment(borrower, id, i, amount)).value.book;
      && b'.loans == w.book.loans[id := b'.loans[id]] && SameDeal(w.book.loans[id], b'.loans[id])
      && PaidAt(w.book.loans[id].schedule, b'.loans[id].schedule, i, w.now)
  {
    hide RepayInstallment, Accrue, BookOk;
    InstallmentFound(w, borrower, id, i, amount);
    PaymentTouchesOne(w, CallRepayInstallment(borrower, id, i, amount));
    AccrueShape(w.book.loans[id], w.now);
  }

  lemma RepaymentKeepsSchedule(w: World, borrower: Address, id: nat, amount: int)
    requires BookOk(w.book) && Step(w, CallRepayLoan(borrower, id, amount)).Ok?
    ensures id in w.book.loans && id in Step(w, CallRepayLoan(borrower, id, amount)).value.book.loans
    ensures
      var l, l' := w.book.loans[id], Step(w, CallRepayLoan(borrower, id, amount)).value.book.loans[id];
      l'.schedule == l.schedule && SameDeal(l, l')
  {
    hide RepayLoan, Accrue, BookOk;
    PaymentTouchesOne(w, CallRepayLoan(borrower, id, amount));
    AccrueShape(w.book.loans[id], w.now);
  }

  lemma StatusKeepsSchedule(w: World, op: Op)
    requires BookOk(w.book) && Step(w, op).Ok? && (op.CallApproveLoan? || op.CallCancelLoan? || op.CallMarkDefaulted?)
    ensures op.id in w.book.loans && op.id in Step(w, op).value.book.loans
    ensures
      var l, l' := w.book.loans[op.id], Step(w, op).value.book.loans[op.id];
      l' == l.(status := l'.status, fundedAt := l'.fundedAt)
  {
    hide LoanOk, FundFromPool, Forfeit, AddDebt, SubDebt, Transfer, ValidateLiquidity, DecreaseScore;
  }

  lemma FeesKeepSchedule(w: World, id: nat)
    requires BookOk(w.book) && Step(w, CallApplyLateFees(id)).Ok?
    ensures id in w.book.loans && id in Step(w, CallApplyLateFees(id)).value.book.loans
    ensures
      var l, l' := w.book.loans[id], Step(w, CallApplyLateFees(id)).value.book.loans[id];
      l' == l.(cursor := l'.cursor, lateFees := l'.lateFees, remaining := l'.remaining)
  {
    hide LoanOk, Accrue;
    AccrueShape(w.book.loans[id], w.now);
  }

  predicate PaysInstallment(w: World, op: Op, id: nat, i: nat) {
    op.CallRepayInstallment? && op.id == id && op.i == i && Step(w, op).Ok?
  }

  lemma OthersAreUntouched(w: World, op: Op, id: nat)
    requires BookOk(w.book) && id in w.book.loans && Step(w, op).Ok? && Target(w, op) != id
    ensures id in Step(w, op).value.book.loans && Step(w, op).value.book.loans[id] == w.book.loans[id]
  {
    hide Step, LoanOk;
    StepTouchesOne(w, op);
  }

  /** One accepted call keeps every deal, and touches an installment only by paying it. */
  lemma StepKeepsDeal(w: World, op: Op, id: nat, i: nat)
    requires BookOk(w.book) && id in w.book.loans && i < |w.book.loans[id].schedule| && Step(w, op).Ok?
    ensures
      var b' := Step(w, op).value.book;
      && id in b'.loans && SameDeal(w.book.loans[id], b'.loans[id])
      && var s, s' := w.book.loans[id].schedule, b'.loans[id].schedule;
         if PaysInstallment(w, op, id, i) then PaidAt(s, s', i, w.now) else s'[i] == s[i]
  {
    hide Step, BookOk;
    if Target(w, op) != id {
      OthersAreUntouched(w, op, id);
    } else if op.CallRepayInstallment? {
      InstallmentIsMarkedPaid(w, op.borrower, id, op.i, op.amount);
    } else if op.CallRepayLoan? {
      RepaymentKeepsSchedule(w, op.borrower, id, op.amount);
    } else if op.CallApplyLateFees? {
      FeesKeepSchedule(w, id);
    } else if op.CallApproveLoan? || op.CallCancelLoan? || op.CallMarkDefaulted? {
      StatusKeepsSchedule(w, op);
    } else {
      KnownId(w, id);
    }
  }

  lemma KnownId(w: World, id: nat)
    requires BookOk(w.book) && id in w.book.loans
    ensures 1 <= id <= w.book.counter
  {
  }

  /** How often a run pays installment `i` of loan `id`. */
  function Payments(w: World, ops: seq<Op>, id: nat, i: nat): nat {
    if ops == [] then 0
    else
      var front := ops[..|ops| - 1];
      Payments(w, front, id, i) + if PaysInstallment(Run(w, front), ops[|ops| - 1], id, i) then 1 else 0
  }

  /** In no run is an installment paid twice: it is paid once if it ends up paid without having
      started so, and else never. The deal stays what it was. */
  lemma {:induction false} InstallmentIsPaidOnce(w: World, ops: seq<Op>, id: nat, i: nat)
    requires AllOk(w) && id in w.book.loans && i < |w.book.loans[id].schedule|
    ensures id in Run(w, ops).book.loans && SameDeal(w.book.loans[id], Run(w, ops).book.loans[id])
    ensures
      var s, s' := w.book.loans[id].schedule, Run(w, ops).book.loans[id].schedule;
      && Payments(w, ops, id, i) == (if s'[i].paid && !s[i].paid then 1 else 0)
      && (s[i].paid ==> s'[i] == s[i])
  {
    hide Step, BookOk;
    if ops != [] {
      var front := ops[..|ops| - 1];
      InstallmentIsPaidOnce(w, front, id, i);
      RunFollows(w, front);
      if Step(Run(w, front), ops[|ops| - 1]).Ok? {
        StepKeepsDeal(Run(w, front), ops[|ops| - 1], id, i);
      }
    }
  }

  lemma PaidIsRefused(w: World, borrower: Address, id: nat, i: nat, amount: int)
    requires id in w.book.loans && i < |w.book.loans[id].schedule| && w.book.loans[id].schedule[i].paid
    ensures RepayInstallment(w, borrower, id, i, amount).Err?
    ensures Repayable(w, borrower, id).Ok? ==>
              RepayInstallment(w, borrower, id, i, amount) == Err(InstallmentAlreadyPaid)
  {
    hide Accrue, Settle, Pay, BookFee;
  }

  /** Once paid, an installment stays paid whatever follows, and a further payment of it is
      refused: as already paid, unless the loan is no longer Active or not the caller's. */
  lemma PaidForGood(w: World, op: Op, ops: seq<Op>, borrower: Address, amount: int)
    requires AllOk(w) && op.CallRepayInstallment? && Step(w, op).Ok?
    ensures
      var w' := Run(Step(w, op).value, ops);
      && op.id in w'.book.loans && op.i < |w'.book.loans[op.id].schedule|
      && w'.book.loans[op.id].schedule[op.i].paid && w'.book.loans[op.id].schedule[op.i].paidAt == w.now
      && Step(w', CallRepayInstallment(borrower, op.id, op.i, amount)).Err?
      && (Repayable(w', borrower, op.id).Ok? ==>
            Step(w', CallRepayInstallment(borrower, op.id, op.i, amount)) == Err(InstallmentAlreadyPaid))
  {
    hide RepayInstallment, Repayable, Run;
    InstallmentIsMarkedPaid(w, op.borrower, op.id, op.i, op.amount);
    ApplyFollows(w, op);
    InstallmentIsPaidOnce(Step(w, op).value, ops, op.id, op.i);
    PaidIsRefused(Run(Step(w, op).value, ops), borrower, op.id, op.i, amount);
  }
}
