/** What the late-fee accrual and the waterfall guarantee about one loan, over any sequence of
    accruals and payments. */
module LoanProofs {
  import opened Common
  import opened Arithmetic
  import opened LoanModel

  // ---------------------------------------------------------------- waterfall

  /** What "late fees, then interest, then service fee, then principal" means: the parts add up
      to the payment, none exceeds its bucket, and a bucket gets something only once every
      earlier one is emptied. */
  predicate InPriorityOrder(l: Loan, amount: int, a: Allocation) {
    && a.lateFee + a.interest + a.serviceFee + a.principal == amount
    && 0 <= a.lateFee <= l.lateFees && 0 <= a.interest <= l.interest
    && 0 <= a.serviceFee <= l.serviceFee && 0 <= a.principal <= l.principal
    && (a.interest > 0 ==> a.lateFee == l.lateFees)
    && (a.serviceFee > 0 ==> a.lateFee == l.lateFees && a.interest == l.interest)
    && (a.principal > 0 ==> a.lateFee == l.lateFees && a.interest == l.interest && a.serviceFee == l.serviceFee)
  }

  /** The waterfall is the one allocation of a payment in priority order. */
  lemma WaterfallIsTheOnlyPriorityOrder(l: Loan, amount: int, a: Allocation)
    requires LoanOk(l) && 0 <= amount <= l.remaining
    ensures InPriorityOrder(l, amount, a) <==> a == Split(l, amount)
  {
  }

  lemma PayKeepsLoan(l: Loan, amount: int)
    requires LoanOk(l) && l.status.Active? && 0 < amount <= l.remaining
    ensures LoanOk(Pay(l, amount))
    ensures Pay(l, amount).principal == l.principal - Split(l, amount).principal
    ensures InPriorityOrder(l, amount, Split(l, amount))
    ensures Pay(l, amount).status.Paid? <==> amount == l.remaining
  {
    WaterfallIsTheOnlyPriorityOrder(l, amount, Split(l, amount));
  }

  lemma ChargeEffect(l: Loan, start: nat, days: nat)
    requires 0 <= l.remaining && Charge(l, start, days).Ok?
    ensures
      var a := Charge(l, start, days).value;
      var fee := l.remaining * days / 200;
      && 0 <= fee == a.fee && a.days == (if fee == 0 then 0 else days)
      && a.loan == (if fee == 0 then l
                    else l.(cursor := start + days * SECONDS_PER_DAY,
                            lateFees := l.lateFees + fee, remaining := l.remaining + fee))
      && (fee != 0 ==> FitsI128(l.remaining + fee))
  {
    FeeOfDays(l.remaining, days);
  }

  lemma AccrueKeepsLoan(l: Loan, now: nat)
    requires LoanOk(l) && l.status.Active? && Accrue(l, now).Ok?
    ensures
      var a := Accrue(l, now).value;
      && LoanOk(a.loan) && 0 <= a.fee
      && a.loan == l.(cursor := a.loan.cursor, lateFees := l.lateFees + a.fee, remaining := l.remaining + a.fee)
      && (a.fee == 0 <==> a.days == 0) && (a.fee == 0 ==> a.loan == l)
  {
    match OverdueSince(l.schedule, now)
    case None =>
    case Some(since) =>
      var start := Max(l.cursor, since);
      if now > start && (now - start) / SECONDS_PER_DAY > 0 {
        ChargeEffect(l, start, (now - start) / SECONDS_PER_DAY);
      }
  }

  lemma FeeOfDays(remaining: int, days: nat)
    requires remaining >= 0
    ensures 0 <= remaining * LATE_FEE_BPS_PER_DAY * days
    ensures remaining * LATE_FEE_BPS_PER_DAY * days / BPS_DENOMINATOR == remaining * days / 200
  {
    assert remaining * LATE_FEE_BPS_PER_DAY * days == remaining * days * 50;
  }

  // ---------------------------------------------------------------- cursor

  lemma {:induction false} EarliestDueIsLeast(schedule: seq<Installment>)
    ensures EarliestDue(schedule).None? <==> schedule == []
    ensures EarliestDue(schedule).Some? ==>
              && (forall i :: 0 <= i < |schedule| ==> EarliestDue(schedule).value <= schedule[i].dueDate)
              && (exists i :: 0 <= i < |schedule| && EarliestDue(schedule).value == schedule[i].dueDate)
  {
    if schedule != [] {
      var front := schedule[..|schedule| - 1];
      EarliestDueIsLeast(front);
      assert schedule == front + [schedule[|schedule| - 1]];
    }
  }

  /** Two schedules with the same due dates; installments may differ in whether they are paid. */
  predicate SameDates(s: seq<Installment>, s': seq<Installment>) {
    |s| == |s'| && forall i :: 0 <= i < |s| ==> s[i].dueDate == s'[i].dueDate
  }

  lemma {:induction false} SameDatesSameStart(s: seq<Installment>, s': seq<Installment>)
    requires SameDates(s, s')
    ensures EarliestDue(s) == EarliestDue(s')
  {
    if s != [] {
      SameDatesSameStart(s[..|s| - 1], s'[..|s| - 1]);
    }
  }

  /** The cursor is where `charged` whole days after the earliest due date end, never ahead of the
      clock; it is 0 exactly when nothing was charged. */
  predicate CursorOk(l: Loan, charged: nat, now: nat) {
    && (l.cursor == 0 <==> charged == 0)
    && (charged > 0 ==>
          && EarliestDue(l.schedule).Some?
          && l.cursor == EarliestDue(l.schedule).value + SECONDS_PER_DAY * charged)
    && l.cursor <= now
  }

  lemma AccrueMovesCursor(l: Loan, charged: nat, before: nat, now: nat)
    requires CursorOk(l, charged, before) && before <= now && Accrue(l, now).Ok?
    ensures
      var a := Accrue(l, now).value;
      && CursorOk(a.loan, charged + a.days, now)
      && (a.days > 0 ==> now < a.loan.cursor + SECONDS_PER_DAY)
      && a.loan.schedule == l.schedule
  {
    var a := Accrue(l, now).value;
    if a.days > 0 {
      var since := EarliestDue(l.schedule).value;
      var start := Max(l.cursor, since);
      FloorBounds(now - start, SECONDS_PER_DAY);
      assert start == since + SECONDS_PER_DAY * charged;
    }
  }

  /** What can happen to an Active loan between its funding and its end. */
  datatype LoanEvent =
    | ApplyLateFees(at: nat)
    | Payment(at: nat, amount: int)
    | InstallmentPayment(at: nat, i: nat, amount: int)

  datatype History = History(loan: Loan, charged: nat, now: nat)

  /** One event; a payment accrues first. Only events that the contract accepts, on an Active
      loan and a clock that does not run backwards, are part of a history. */
  function Happen(h: History, e: LoanEvent): Result<History> {
    var _ :- Need(h.now <= e.at, ClockReversed);
    var _ :- Need(h.loan.status.Active?, LoanNotActive);
    var a :- match e {
      case ApplyLateFees(at) => Accrue(h.loan, at)
      case Payment(at, amount) => Repay(h.loan, at, amount)
      case InstallmentPayment(at, i, amount) => RepayOne(h.loan, at, i, amount)
    };
    Ok(History(a.loan, h.charged + a.days, e.at))
  }

  function HappenAll(h: History, events: seq<LoanEvent>): Result<History> {
    if events == [] then Ok(h)
    else
      var before :- HappenAll(h, events[..|events| - 1]);
      Happen(before, events[|events| - 1])
  }

  /** One event moves the cursor by the days it charges, and the due dates not at all. */
  lemma EventMovesCursor(h: History, e: LoanEvent, h': History)
    requires LoanOk(h.loan) && CursorOk(h.loan, h.charged, h.now) && Happen(h, e) == Ok(h')
    ensures LoanOk(h'.loan) && CursorOk(h'.loan, h'.charged, h'.now)
    ensures h.charged <= h'.charged && SameDates(h.loan.schedule, h'.loan.schedule)
  {
    AccrueMovesCursor(h.loan, h.charged, h.now, e.at);
    AccrueKeepsLoan(h.loan, e.at);
    if !e.ApplyLateFees? {
      PayKeepsLoan(Accrue(h.loan, e.at).value.loan, e.amount);
      SameDatesSameStart(h.loan.schedule, h'.loan.schedule);
    }
  }

  /** No late-fee day is lost or charged twice: over any interleaving of accruals and payments,
      of installments too, the cursor accounts for exactly the days charged. */
  lemma {:induction false} CursorAccountsForDays(h: History, events: seq<LoanEvent>)
    requires LoanOk(h.loan) && CursorOk(h.loan, h.charged, h.now) && HappenAll(h, events).Ok?
    ensures
      var h' := HappenAll(h, events).value;
      && LoanOk(h'.loan) && CursorOk(h'.loan, h'.charged, h'.now)
      && SameDates(h.loan.schedule, h'.loan.schedule) && h.charged <= h'.charged
  {
    hide LoanOk, CursorOk, Happen;
    if events != [] {
      var front := events[..|events| - 1];
      CursorAccountsForDays(h, front);
      EventMovesCursor(HappenAll(h, front).value, events[|events| - 1], HappenAll(h, events).value);
    }
  }

  /** A second accrual at the same timestamp charges nothing, also after a payment in between and
      also when the balance was too small for the first to charge anything. */
  lemma SecondAccrualChargesNothing(l: Loan, now: nat, l': Loan)
    requires LoanOk(l) && l.status.Active? && Accrue(l, now).Ok?
    requires var a := Accrue(l, now).value.loan;
             l'.schedule == a.schedule && l'.cursor == a.cursor && 0 <= l'.remaining <= a.remaining
    ensures Accrue(l', now) == Ok(Accrual(l', 0, 0))
  {
    var a := Accrue(l, now).value;
    match OverdueSince(l.schedule, now)
    case None =>
    case Some(since) =>
      var start := Max(l.cursor, since);
      if now > start {
        var days := (now - start) / SECONDS_PER_DAY;
        FloorBounds(now - start, SECONDS_PER_DAY);
        if days > 0 && a.days == 0 {
          SmallerBalanceChargesNothing(l, start, days, l');
        }
      }
  }

  lemma SmallerBalanceChargesNothing(l: Loan, start: nat, days: nat, l': Loan)
    requires 0 <= l'.remaining <= l.remaining && days > 0
    requires Charge(l, start, days).Ok? && Charge(l, start, days).value.days == 0
    ensures Charge(l', start, days) == Ok(Accrual(l', 0, 0))
  {
    FeeOfDays(l.remaining, days);
    FeeOfDays(l'.remaining, days);
    MulMono(l'.remaining * LATE_FEE_BPS_PER_DAY, l.remaining * LATE_FEE_BPS_PER_DAY, days);
  }

  // ---------------------------------------------------------------- growth

  function Pow(b: nat, e: nat): nat {
    if e == 0 then 1 else b * Pow(b, e - 1)
  }

  lemma {:induction false} PowAdd(b: nat, d: nat, e: nat)
    ensures Pow(b, d + e) == Pow(b, d) * Pow(b, e)
  {
    if d > 0 {
      PowAdd(b, d - 1, e);
      assert Pow(b, d + e) == b * (Pow(b, d - 1) * Pow(b, e)) == b * Pow(b, d - 1) * Pow(b, e);
    }
  }

  /** One more day of compounding outgrows one more day of simple interest. */
  lemma CompoundOneMoreDay(d: nat, x: nat, y: nat)
    requires d > 0 && (199 + d) * x <= 200 * y
    ensures (200 + d) * (200 * x) <= 200 * (201 * y)
  {
    var z := d * x;
    assert (199 + d) * x == 199 * x + z;
    assert (200 + d) * (200 * x) == 40_000 * x + 200 * z;
    MulMono(1, d, x);
  }

  /** Bernoulli: d days of simple interest never exceed d days of compounding. */
  lemma {:induction false} SimpleAtMostCompound(d: nat)
    ensures (200 + d) * Pow(200, d) <= 200 * Pow(201, d)
  {
    if d > 0 {
      SimpleAtMostCompound(d - 1);
      CompoundOneMoreDay(d, Pow(200, d - 1), Pow(201, d - 1));
    }
  }

  lemma ScaleBy(r: nat, r': nat, d: nat, x: nat, y: nat)
    requires r' * 200 <= r * (200 + d) && (200 + d) * x <= 200 * y
    ensures r' * x <= r * y
  {
    MulMono(r' * 200, r * (200 + d), x);
    assert r * (200 + d) * x == r * ((200 + d) * x);
    MulMono((200 + d) * x, 200 * y, r);
    assert (200 + d) * x * r == r * ((200 + d) * x);
    assert 200 * y * r == 200 * (r * y);
    assert r' * 200 * x == 200 * (r' * x);
  }

  /** One charge of d days: at most d days of compounding, at least simple interest less a unit. */
  lemma ChargeBounds(r: nat, d: nat, r': nat)
    requires r' == r + r * d / 200
    ensures r' * Pow(200, d) <= r * Pow(201, d)
    ensures r' * 200 >= r * 200 + r * d - 199
  {
    FloorBounds(r * d, 200);
    assert r * (200 + d) == r * 200 + r * d;
    SimpleAtMostCompound(d);
    ScaleBy(r, r', d, Pow(200, d), Pow(201, d));
  }

  /** A balance that grew from r0 to r by charging `days` days in `k` accruals: never worse than
      daily compounding at 1/200, never less than simple interest minus one unit per accrual. */
  predicate GrowthBounded(r0: int, r: int, days: nat, k: nat) {
    && 0 <= r0 <= r
    && r * Pow(200, days) <= r0 * Pow(201, days)
    && r * 200 >= r0 * 200 + r0 * days - 199 * k
  }

  lemma GrowthStep(r0: nat, r: nat, r': nat, days: nat, d: nat, k: nat)
    requires GrowthBounded(r0, r, days, k)
    requires r' == r + r * d / 200
    ensures GrowthBounded(r0, r', days + d, k + 1)
  {
    ChargeBounds(r, d, r');
    PowAdd(200, days, d);
    PowAdd(201, days, d);
    CompoundTwice(r0, r, r', Pow(200, days), Pow(201, days), Pow(200, d), Pow(201, d));
    MulMono(r0, r, d);
    assert r0 * (days + d) == r0 * days + r0 * d;
  }

  lemma CompoundTwice(r0: nat, r: nat, r': nat, a: nat, b: nat, x: nat, y: nat)
    requires r * a <= r0 * b && r' * x <= r * y
    ensures r' * (a * x) <= r0 * (b * y)
  {
    MulMono(r' * x, r * y, a);
    MulMono(r * a, r0 * b, y);
    assert r' * (a * x) == r' * x * a;
    assert r * y * a == r * a * y;
    assert r0 * (b * y) == r0 * b * y;
  }

  lemma AccrueCharges(l: Loan, now: nat)
    requires LoanOk(l) && Accrue(l, now).Ok?
    ensures var a := Accrue(l, now).value;
            a.loan.remaining == l.remaining + l.remaining * a.days / 200
  {
    match OverdueSince(l.schedule, now)
    case None =>
    case Some(since) =>
      var start := Max(l.cursor, since);
      if now > start && (now - start) / SECONDS_PER_DAY > 0 {
        ChargeEffect(l, start, (now - start) / SECONDS_PER_DAY);
      }
  }

  /** How many events of a history charged a late fee. */
  function Charges(h: History, events: seq<LoanEvent>): nat
    requires HappenAll(h, events).Ok?
  {
    if events == [] then 0
    else
      var front := events[..|events| - 1];
      Charges(h, front) + if HappenAll(h, events).value.charged > HappenAll(h, front).value.charged then 1 else 0
  }

  lemma AccrualGrows(l: Loan, now: nat)
    requires LoanOk(l) && l.status.Active? && Accrue(l, now).Ok?
    ensures
      var a := Accrue(l, now).value;
      && LoanOk(a.loan) && a.loan.status.Active?
      && a.loan.remaining == l.remaining + l.remaining * a.days / 200
      && (a.days == 0 ==> a.loan.remaining == l.remaining)
  {
    AccrueKeepsLoan(l, now);
    AccrueCharges(l, now);
  }

  /** One more accrual keeps a balance within its bounds. */
  lemma BoundOfOneMore(r0: nat, from: nat, b: History, at: nat, h': History, k: nat)
    requires LoanOk(b.loan) && from <= b.charged && Happen(b, ApplyLateFees(at)) == Ok(h')
    requires GrowthBounded(r0, b.loan.remaining, b.charged - from, k)
    ensures LoanOk(h'.loan) && b.charged <= h'.charged
    ensures GrowthBounded(r0, h'.loan.remaining, h'.charged - from, k + if h'.charged > b.charged then 1 else 0)
  {
    hide GrowthBounded, LoanOk;
    AccrualGrows(b.loan, at);
    if h'.charged > b.charged {
      LoanNonNegative(b.loan);
      GrowthStep(r0, b.loan.remaining, h'.loan.remaining, b.charged - from, h'.charged - b.charged, k);
    }
  }

  lemma LoanNonNegative(l: Loan)
    requires LoanOk(l)
    ensures 0 <= l.remaining
  {
  }

  lemma NoGrowthYet(r: nat)
    ensures GrowthBounded(r, r, 0, 0)
  {
  }

  /** The late-fee growth bound. However the accruals are spread, D charged days make a balance
      R0 grow to at most R0 * (201/200)^D, and to at least R0 + R0 * D / 200 less one unit for
      each accrual that charged something. */
  lemma {:induction false} LateFeeGrowthBound(h: History, events: seq<LoanEvent>)
    requires LoanOk(h.loan) && HappenAll(h, events).Ok?
    requires forall i :: 0 <= i < |events| ==> events[i].ApplyLateFees?
    ensures
      var h' := HappenAll(h, events).value;
      && h'.charged >= h.charged && LoanOk(h'.loan)
      && GrowthBounded(h.loan.remaining, h'.loan.remaining, h'.charged - h.charged, Charges(h, events))
  {
    hide GrowthBounded, LoanOk, Happen;
    LoanNonNegative(h.loan);
    if events == [] {
      NoGrowthYet(h.loan.remaining);
    } else {
      var front, e := events[..|events| - 1], events[|events| - 1];
      LateFeeGrowthBound(h, front);
      BoundOfOneMore(h.loan.remaining, h.charged, HappenAll(h, front).value, e.at,
                     HappenAll(h, events).value, Charges(h, front));
    }
  }

  // ---------------------------------------------------------------- payment splitting

  /** Accepted repayments one after another at the same timestamp, with the fees they accrued. */
  function RepayAll(l: Loan, now: nat, amounts: seq<int>): Result<Accrual>
    requires amounts != []
  {
    if |amounts| == 1 then Repay(l, now, amounts[0])
    else
      var b :- RepayAll(l, now, amounts[..|amounts| - 1]);
      var _ :- Need(b.loan.status.Active?, LoanNotActive);
      var r :- Repay(b.loan, now, amounts[|amounts| - 1]);
      Ok(Accrual(r.loan, b.fee + r.fee, b.days + r.days))
  }

  lemma PayTwice(l: Loan, a: int, b: int)
    requires LoanOk(l) && l.status.Active? && 0 < a < l.remaining && 0 < b <= l.remaining - a
    ensures Pay(Pay(l, a), b) == Pay(l, a + b)
  {
  }

  /** Nor do the parts that go to principal and to income depend on the splitting. */
  lemma SplitTwice(l: Loan, a: int, b: int)
    requires LoanOk(l) && l.status.Active? && 0 < a < l.remaining && 0 < b <= l.remaining - a
    ensures Split(l, a + b).principal == Split(l, a).principal + Split(Pay(l, a), b).principal
    ensures FeePart(Split(l, a + b)) == FeePart(Split(l, a)) + FeePart(Split(Pay(l, a), b))
    ensures 0 <= FeePart(Split(l, a)) && 0 <= FeePart(Split(Pay(l, a), b))
    ensures 0 <= Split(l, a).principal && 0 <= Split(Pay(l, a), b).principal
  {
  }

  /** A payment right after a payment is one payment of the sum. */
  lemma RepayTwice(l: Loan, now: nat, first: int, b: Accrual, last: int)
    requires LoanOk(l) && l.status.Active? && Repay(l, now, first) == Ok(b) && b.loan.status.Active?
    requires Repay(b.loan, now, last).Ok?
    ensures
      var r := Repay(b.loan, now, last).value;
      Repay(l, now, first + last) == Ok(Accrual(r.loan, b.fee + r.fee, b.days + r.days))
  {
    hide Accrue;
    var acc := Accrue(l, now).value;
    AccrueKeepsLoan(l, now);
    PayKeepsLoan(acc.loan, first);
    SecondAccrualChargesNothing(l, now, b.loan);
    PayTwice(acc.loan, first, last);
  }

  /** Splitting a payment changes nothing about the loan: buckets, balance, cursor, status and
      the fee accrued are those of one payment of the sum. */
  lemma {:induction false} SplittingIsNeutral(l: Loan, now: nat, amounts: seq<int>)
    requires LoanOk(l) && l.status.Active? && amounts != []
    requires RepayAll(l, now, amounts).Ok?
    ensures RepayAll(l, now, amounts) == Repay(l, now, SumSeq(amounts))
  {
    hide Repay, LoanOk;
    if |amounts| == 1 {
      assert SumSeq(amounts) == SumSeq([]) + amounts[0];
    } else {
      var front, last := amounts[..|amounts| - 1], amounts[|amounts| - 1];
      SplittingIsNeutral(l, now, front);
      RepayTwice(l, now, SumSeq(front), Repay(l, now, SumSeq(front)).value, last);
    }
  }
}
