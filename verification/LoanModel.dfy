/** One loan: its record, the late-fee accrual and the repayment waterfall. */
module LoanModel {
  import opened Common

  const SERVICE_FEE_BPS := 100
  const BPS_DENOMINATOR := 10_000
  const LATE_FEE_BPS_PER_DAY := 50
  const SECONDS_PER_DAY: nat := 86_400

  datatype Status = Pending | Active | Paid | Defaulted | Cancelled

  datatype LoanType = Standard | LearnerInstallment

  datatype Installment = Installment(dueDate: nat, amount: int, paid: bool, paidAt: nat)

  datatype Loan = Loan(
    id: nat, borrower: Address, vendor: Address,
    total: int, guarantee: int, rateBps: nat, interestAmount: int, serviceFeeAmount: int,
    principal: int, interest: int, serviceFee: int, remaining: int,
    schedule: seq<Installment>, status: Status, loanType: LoanType,
    createdAt: nat, fundedAt: nat, lateFees: int, cursor: nat)

  /** The protocol parameters a call reads. */
  datatype Params = Params(minGuaranteePercent: int, minReputation: nat, defaultPenalty: nat,
                           largeLoanThreshold: int, largeLoanDefaultPenalty: nat,
                           baseInterestBps: nat, gracePeriod: nat)

  /** What holds of every stored loan: the outstanding buckets are non-negative and make up the
      balance, principal is what remains longest, and the loan is `Paid` exactly at balance 0. */
  predicate LoanOk(l: Loan) {
    && 0 < l.guarantee <= l.total
    && 0 <= l.lateFees && 0 <= l.interest && 0 <= l.serviceFee && 0 <= l.principal <= l.total
    && l.remaining == l.lateFees + l.interest + l.serviceFee + l.principal
    && FitsI128(l.remaining)
    && (l.status.Paid? <==> l.remaining == 0)
    && (l.principal == 0 ==> l.remaining == 0)
    && (l.status.Pending? ==> l.principal == l.total && l.cursor == 0)
  }

  // ---------------------------------------------------------------- late fees

  /** The earliest due date of a schedule. */
  function EarliestDue(schedule: seq<Installment>): Option<nat> {
    if schedule == [] then None
    else
      var last := schedule[|schedule| - 1].dueDate;
      match EarliestDue(schedule[..|schedule| - 1])
      case None => Some(last)
      case Some(d) => Some(if last < d then last else d)
  }

  /** Since when the loan is overdue, if it is. */
  function OverdueSince(schedule: seq<Installment>, now: nat): Option<nat> {
    match EarliestDue(schedule)
    case None => None
    case Some(d) => if d < now then Some(d) else None
  }

  /** The loan after an accrual, the fee charged and the number of days it was charged for. */
  datatype Accrual = Accrual(loan: Loan, fee: int, days: nat)

  function Accrue(l: Loan, now: nat): Result<Accrual> {
    match OverdueSince(l.schedule, now)
    case None => Ok(Accrual(l, 0, 0))
    case Some(since) =>
      var start := Max(l.cursor, since);
      var days := if now <= start then 0 else (now - start) / SECONDS_PER_DAY;
      if days == 0 then Ok(Accrual(l, 0, 0)) else Charge(l, start, days)
  }

  /** Charges `days` whole days from `start` on; a fee that rounds to 0 leaves the loan alone. */
  function Charge(l: Loan, start: nat, days: nat): Result<Accrual> {
    var perDay :- MulI128(l.remaining, LATE_FEE_BPS_PER_DAY);
    var scaled :- MulI128(perDay, days);
    var fee := TruncDiv(scaled, BPS_DENOMINATOR);
    if fee == 0 then Ok(Accrual(l, 0, 0))
    else
      var lateFees :- AddI128(l.lateFees, fee);
      var remaining :- AddI128(l.remaining, fee);
      Ok(Accrual(l.(cursor := start + days * SECONDS_PER_DAY, lateFees := lateFees, remaining := remaining), fee, days))
  }

  // ---------------------------------------------------------------- waterfall

  datatype Allocation = Allocation(lateFee: int, interest: int, serviceFee: int, principal: int)

  /** The part of a payment that is income of the pool. */
  function FeePart(a: Allocation): int {
    a.interest + a.serviceFee + a.lateFee
  }

  /** A payment goes to late fees, then interest, then the service fee, then principal. */
  function Split(l: Loan, amount: int): Allocation {
    var lateFee := Min(amount, l.lateFees);
    var interest := Min(amount - lateFee, l.interest);
    var serviceFee := Min(amount - lateFee - interest, l.serviceFee);
    var principal := Min(amount - lateFee - interest - serviceFee, l.principal);
    Allocation(lateFee, interest, serviceFee, principal)
  }

  /** The loan after paying `amount`, closed when nothing is left. */
  function Pay(l: Loan, amount: int): Loan {
    var a := Split(l, amount);
    l.(lateFees := l.lateFees - a.lateFee, interest := l.interest - a.interest,
       serviceFee := l.serviceFee - a.serviceFee, principal := l.principal - a.principal,
       remaining := l.remaining - amount,
       status := if l.remaining == amount then Paid else l.status)
  }

  /** A repayment as the loan sees it: accrue, check the amount, pay. */
  function Repay(l: Loan, now: nat, amount: int): Result<Accrual> {
    var a :- Accrue(l, now);
    var _ :- Need(0 < amount <= a.loan.remaining, InvalidRepaymentAmount);
    Ok(a.(loan := Pay(a.loan, amount)))
  }

  /** The schedule with installment `i` paid at `now`. */
  function MarkPaid(schedule: seq<Installment>, i: nat, now: nat): seq<Installment> {
    if i < |schedule| then schedule[i := schedule[i].(paid := true, paidAt := now)] else schedule
  }

  /** A repayment of one installment, which is marked paid whatever the amount. */
  function RepayOne(l: Loan, now: nat, i: nat, amount: int): Result<Accrual> {
    var _ :- Need(i < |l.schedule|, InvalidInstallmentIndex);
    var _ :- Need(!(i < |l.schedule| && l.schedule[i].paid), InstallmentAlreadyPaid);
    var r :- Repay(l, now, amount);
    Ok(r.(loan := r.loan.(schedule := MarkPaid(r.loan.schedule, i, now))))
  }
}
