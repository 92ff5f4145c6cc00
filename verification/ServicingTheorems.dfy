/** What late fees and payments do to a record and to its borrower's debt, in numbers. */
module ServicingTheorems {
  import opened Common
  import opened LoanModel
  import opened ProtocolModel
  import opened BookProofs
  import opened ProtocolProofs
  import opened AcceptanceTheorems
  import LP = LoanProofs
  import GT = GuaranteeTheorems

  // ---------------------------------------------------------------- late fees

  /** The first date anything of the schedule falls due. */
  ghost predicate FirstDue(schedule: seq<Installment>, due: nat) {
    && (forall i :: 0 <= i < |schedule| ==> due <= schedule[i].dueDate)
    && (exists i :: 0 <= i < |schedule| && due == schedule[i].dueDate)
  }

  /** The late fees due at `now`: half a percent of the balance a day, for the whole days since the
      first due date that have not been charged, rounded down. */
  function LateFee(l: Loan, due: nat, now: nat): int {
    l.remaining * DaysLate(l, due, now) / 200
  }

  function DaysLate(l: Loan, due: nat, now: nat): nat {
    if now <= Max(l.cursor, due) then 0 else (now - Max(l.cursor, due)) / 86_400
  }

  /** The record with them: a fee that rounds to nothing leaves the days for later. */
  function Charged(l: Loan, due: nat, now: nat): Loan {
    if LateFee(l, due, now) == 0 then l
    else l.(cursor := Max(l.cursor, due) + 86_400 * DaysLate(l, due, now),
            lateFees := l.lateFees + LateFee(l, due, now), remaining := l.remaining + LateFee(l, due, now))
  }

  /** An accrual charges exactly that, and nothing on an empty schedule. */
  lemma AccrualCharges(l: Loan, now: nat, due: nat)
    requires LoanOk(l) && Accrue(l, now).Ok?
    ensures l.schedule == [] ==> Accrue(l, now) == Ok(Accrual(l, 0, 0))
    ensures FirstDue(l.schedule, due) ==>
              && Accrue(l, now).value.fee == LateFee(l, due, now) && Accrue(l, now).value.loan == Charged(l, due, now)
              && Accrue(l, now).value.days == (if LateFee(l, due, now) == 0 then 0 else DaysLate(l, due, now))
  {
    LP.EarliestDueIsLeast(l.schedule);
    if FirstDue(l.schedule, due) && DaysLate(l, due, now) > 0 {
      LP.ChargeEffect(l, Max(l.cursor, due), DaysLate(l, due, now));
    }
  }

  /** `apply_late_fees` is accepted exactly on an Active loan, ... */
  lemma LateFeesAcceptedIff(w: World, id: nat)
    requires WorldOk(w) && Quotable(w, id) && (id in w.book.loans ==> Ample(w, w.book.loans[id].borrower))
    ensures ApplyLateFees(w, id).Ok? <==> id in w.book.loans && w.book.loans[id].status.Active?
  {
    hide Accrue, BookOk;
    if id in w.book.loans && w.book.loans[id].status.Active? {
      DueRecord(w, id);
      HeldForLoan(w, id);
      LP.AccrueKeepsLoan(w.book.loans[id], w.now);
    }
  }

  /** ... stores the accrual and puts its fee on the borrower's debt. */
  lemma LateFeesAreBooked(w: World, id: nat, a: Address)
    requires BookOk(w.book) && ApplyLateFees(w, id).Ok?
    ensures id in w.book.loans && Accrue(w.book.loans[id], w.now).Ok?
    ensures
      var w', accrual := ApplyLateFees(w, id).value, Accrue(w.book.loans[id], w.now).value;
      && w' == w.(book := w'.book) && w'.book.loans == w.book.loans[id := accrual.loan]
      && Debt(w'.book, a) == Debt(w.book, a) + (if a == w.book.loans[id].borrower then accrual.fee else 0)
  {
    hide Accrue;
    LP.AccrueKeepsLoan(w.book.loans[id], w.now);
  }

  // ---------------------------------------------------------------- payments

  /** `paid` is `l` after a payment of `amount`: it eats up late fees, then interest, then the
      service fee, then principal. */
  predicate PaidDown(l: Loan, amount: int, paid: Loan) {
    && paid.lateFees == Max(0, l.lateFees - amount)
    && paid.lateFees + paid.interest == Max(0, l.lateFees + l.interest - amount)
    && paid.lateFees + paid.interest + paid.serviceFee == Max(0, l.lateFees + l.interest + l.serviceFee - amount)
    && paid.lateFees + paid.interest + paid.serviceFee + paid.principal == paid.remaining == l.remaining - amount
    && paid.status == (if amount == l.remaining then Paid else l.status)
    && paid == l.(lateFees := paid.lateFees, interest := paid.interest, serviceFee := paid.serviceFee,
                  principal := paid.principal, remaining := paid.remaining, status := paid.status,
                  schedule := paid.schedule)
  }

  lemma PayPaysDown(l: Loan, amount: int, schedule: seq<Installment>)
    requires LoanOk(l) && 0 < amount <= l.remaining
    ensures PaidDown(l, amount, Pay(l, amount).(schedule := schedule))
  {
  }

  /** A repayment, whole loan or installment, accrues the late fees, pays the record down and takes
      the amount off the borrower's debt. */
  lemma RepaymentIsBooked(w: World, op: Op, a: Address)
    requires BookOk(w.book) && Step(w, op).Ok? && (op.CallRepayLoan? || op.CallRepayInstallment?)
    ensures op.id in w.book.loans && Accrue(w.book.loans[op.id], w.now).Ok?
    ensures
      var w', accrual := Step(w, op).value, Accrue(w.book.loans[op.id], w.now).value;
      && op.id in w'.book.loans && PaidDown(accrual.loan, op.amount, w'.book.loans[op.id])
      && w'.book.loans == w.book.loans[op.id := w'.book.loans[op.id]]
      && Debt(w'.book, a) == Debt(w.book, a) + (if a == op.borrower then accrual.fee - op.amount else 0)
  {
    hide Step, Accrue, Pay, PaidDown;
    GT.PaymentParts(w, op, Step(w, op).value);
    var l := w.book.loans[op.id];
    LP.AccrueKeepsLoan(l, w.now);
    PayPaysDown(Accrue(l, w.now).value.loan, op.amount, GT.LeftOver(w, op).schedule);
    DebtAfterPayment(w, op, a);
  }

  lemma SettledDebt(w: World, book: Book, l: Loan, amount: int, paid: Loan, a: Address)
    requires Settle(w.(book := book), l, amount, paid).Ok?
    ensures Debt(Settle(w.(book := book), l, amount, paid).value.book, a)
         == Debt(book, a) - (if a == l.borrower then amount else 0)
  {
    hide MovePayment;
  }

  lemma DebtAfterPayment(w: World, op: Op, a: Address)
    requires Step(w, op).Ok? && (op.CallRepayLoan? || op.CallRepayInstallment?)
    requires op.id in w.book.loans && Accrue(w.book.loans[op.id], w.now).Ok? && BookOk(w.book)
    ensures Debt(Step(w, op).value.book, a)
         == Debt(w.book, a) + (if a == op.borrower then Accrue(w.book.loans[op.id], w.now).value.fee - op.amount else 0)
  {
    hide Accrue, Settle, LoanOk;
    var l := w.book.loans[op.id];
    LP.AccrueKeepsLoan(l, w.now);
    var accrual := Accrue(l, w.now).value;
    var paid := Pay(accrual.loan, op.amount);
    SettledDebt(w, BookFee(w.book, l.borrower, accrual.fee).value, accrual.loan, op.amount,
                if op.CallRepayLoan? then paid else paid.(schedule := MarkPaid(paid.schedule, op.i, w.now)), a);
  }
}
