/** How one step changes the loan book: at most one new loan, every record along its lifecycle. */
module LifecycleProofs {
  import opened Common
  import opened LoanModel
  import opened ProtocolModel
  import opened BookProofs
  import opened ProtocolProofs

  lemma CreateStep(w: World, user: Address, vendor: Address, total: int, guarantee: int,
                   schedule: seq<Installment>, loanType: LoanType, ctx: Context)
    requires (forall id :: id in w.book.loans <==> 1 <= id <= w.book.counter)
    requires CreateLoan(w, user, vendor, total, guarantee, schedule, loanType, ctx).Ok?
    ensures BookStep(w.book, CreateLoan(w, user, vendor, total, guarantee, schedule, loanType, ctx).value.book)
  {
    var _, _ := CreateParts(w, user, vendor, total, guarantee, schedule, loanType, ctx);
  }

  lemma RequestStep(w: World, user: Address, vendor: Address, total: int, guarantee: int,
                    schedule: seq<Installment>, loanType: LoanType, ctx: Context)
    requires (forall id :: id in w.book.loans <==> 1 <= id <= w.book.counter)
    requires RequestLoan(w, user, vendor, total, guarantee, schedule, loanType, ctx).Ok?
    ensures BookStep(w.book, RequestLoan(w, user, vendor, total, guarantee, schedule, loanType, ctx).value.book)
  {
    var _ := RequestParts(w, user, vendor, total, guarantee, schedule, loanType, ctx);
  }

  /** Writing back a record that kept to its lifecycle is a step of the book. */
  lemma WriteBackStep(b: Book, b': Book, l: Loan)
    requires l.id in b.loans && Lifecycle(b.loans[l.id], l)
    requires b'.loans == b.loans[l.id := l] && b'.counter == b.counter && b'.index == b.index
    ensures BookStep(b, b')
  {
    assert forall id :: id in b.loans ==> Lifecycle(b.loans[id], b.loans[id]);
  }

  /** The record a step writes back, for the steps that work on an existing loan. */
  lemma ExistingStep(w: World, op: Op, id: nat)
    requires id in w.book.loans && w.book.loans[id].id == id && Step(w, op).Ok?
    requires (op.CallApproveLoan? && op.id == id) || (op.CallCancelLoan? && op.id == id)
             || (op.CallApplyLateFees? && op.id == id) || (op.CallMarkDefaulted? && op.id == id)
    ensures BookStep(w.book, Step(w, op).value.book)
  {
    hide LoanOk, Accrue, FundFromPool, Forfeit;
    var b' := Step(w, op).value.book;
    if op.CallApplyLateFees? {
      AccrueShape(w.book.loans[id], w.now);
    }
    WriteBackStep(w.book, b', b'.loans[id]);
  }

  lemma AccrueShape(l: Loan, now: nat)
    requires Accrue(l, now).Ok?
    ensures var a := Accrue(l, now).value.loan;
            a == l.(cursor := a.cursor, lateFees := a.lateFees, remaining := a.remaining)
  {
  }

  lemma SettleStep(w: World, l: Loan, a: Accrual, book: Book, amount: int, paid: Loan, w': World)
    requires l.id in w.book.loans && l == w.book.loans[l.id] && l.status.Active?
    requires Accrue(l, w.now) == Ok(a) && BookFee(w.book, l.borrower, a.fee) == Ok(book)
    requires paid == Pay(a.loan, amount).(schedule := paid.schedule)
    requires Settle(w.(book := book), a.loan, amount, paid) == Ok(w')
    ensures BookStep(w.book, w'.book) && w'.book.loans == w.book.loans[l.id := paid]
  {
    AccrueShape(l, w.now);
    SettleParts(w, book, a.loan, amount, paid, w');
    WriteBackStep(w.book, w'.book, paid);
  }

  lemma PaymentStep(w: World, op: Op, id: nat)
    requires id in w.book.loans && w.book.loans[id].id == id && Step(w, op).Ok?
    requires (op.CallRepayLoan? && op.id == id) || (op.CallRepayInstallment? && op.id == id)
    ensures BookStep(w.book, Step(w, op).value.book)
  {
    var l := w.book.loans[id];
    var a := Accrue(l, w.now).value;
    var paid := Pay(a.loan, op.amount);
    SettleStep(w, l, a, BookFee(w.book, op.borrower, a.fee).value, op.amount,
               if op.CallRepayLoan? then paid else paid.(schedule := MarkPaid(paid.schedule, op.i, w.now)),
               Step(w, op).value);
  }

  lemma StepIsBookStep(w: World, op: Op)
    requires BookOk(w.book) && Step(w, op).Ok?
    ensures BookStep(w.book, Step(w, op).value.book)
  {
    hide LoanOk, CreateLoan, RequestLoan, Accrue, Settle, FundFromPool, Forfeit;
    match op
    case CallCreateLoan(user, vendor, total, guarantee, schedule, loanType, ctx) =>
      CreateStep(w, user, vendor, total, guarantee, schedule, loanType, ctx);
    case CallRequestLoan(user, vendor, total, guarantee, schedule, loanType, ctx) =>
      RequestStep(w, user, vendor, total, guarantee, schedule, loanType, ctx);
    case CallApproveLoan(_, id, _) => ExistingStep(w, op, id);
    case CallCancelLoan(_, id) => ExistingStep(w, op, id);
    case CallApplyLateFees(id) => ExistingStep(w, op, id);
    case CallMarkDefaulted(id, _) => ExistingStep(w, op, id);
    case CallRepayLoan(_, id, _) => PaymentStep(w, op, id);
    case CallRepayInstallment(_, id, _, _) => PaymentStep(w, op, id);
    case _ =>
  }

  // ---------------------------------------------------------------- the one record a call works on

  /** The loan a call is about; 0, which numbers no loan, for the others. */
  function Target(w: World, op: Op): nat {
    match op
    case CallCreateLoan(_, _, _, _, _, _, _) => w.book.counter + 1
    case CallRequestLoan(_, _, _, _, _, _, _) => w.book.counter + 1
    case CallApproveLoan(_, id, _) => id
    case CallCancelLoan(_, id) => id
    case CallRepayLoan(_, id, _) => id
    case CallRepayInstallment(_, id, _, _) => id
    case CallApplyLateFees(id) => id
    case CallMarkDefaulted(id, _) => id
    case _ => 0
  }

  /** Only the record of loan `id` differs; it is new if it takes the next number. */
  predicate OneRecord(b: Book, b': Book, id: nat) {
    || (b'.loans == b.loans && b'.counter == b.counter)
    || (id in b'.loans && b'.loans == b.loans[id := b'.loans[id]]
        && if id in b.loans then b'.counter == b.counter else id == b'.counter == b.counter + 1)
  }

  lemma PaymentTouchesOne(w: World, op: Op)
    requires BookOk(w.book) && Step(w, op).Ok? && (op.CallRepayLoan? || op.CallRepayInstallment?)
    ensures
      var l := w.book.loans[op.id];
      var paid := Pay(Accrue(l, w.now).value.loan, op.amount);
      var left := if op.CallRepayLoan? then paid else paid.(schedule := MarkPaid(paid.schedule, op.i, w.now));
      var b' := Step(w, op).value.book;
      && op.id in w.book.loans && l.status.Active? && 0 < op.amount <= Accrue(l, w.now).value.loan.remaining
      && Accrue(l, w.now).Ok? && b'.loans == w.book.loans[op.id := left] && b'.counter == w.book.counter
      && Step(w, op).value.now == w.now
  {
    hide Accrue, Settle, LoanOk, BookFee;
    var l := w.book.loans[op.id];
    var a := Accrue(l, w.now).value;
    var paid := Pay(a.loan, op.amount);
    var left := if op.CallRepayLoan? then paid else paid.(schedule := MarkPaid(paid.schedule, op.i, w.now));
    var book := BookFee(w.book, op.borrower, a.fee).value;
    SettleStep(w, l, a, book, op.amount, left, Step(w, op).value);
    FeeCounter(w.book, op.borrower, a.fee, book);
    AccrueShape(l, w.now);
    SettleCounters(w, book, a.loan, op.amount, left, Step(w, op).value);
  }

  lemma SettleCounters(w: World, book: Book, l: Loan, amount: int, paid: Loan, w': World)
    requires Settle(w.(book := book), l, amount, paid) == Ok(w') && paid.id in book.loans
    ensures w'.book.counter == book.counter && w'.now == w.now
  {
    hide MovePayment;
  }

  lemma FeeCounter(b: Book, borrower: Address, fee: int, b': Book)
    requires BookFee(b, borrower, fee) == Ok(b')
    ensures b'.counter == b.counter && b'.loans == b.loans
  {
  }

  lemma UpkeepTouchesOne(w: World, op: Op)
    requires BookOk(w.book) && Step(w, op).Ok?
    requires op.CallApproveLoan? || op.CallCancelLoan? || op.CallApplyLateFees? || op.CallMarkDefaulted?
    ensures OneRecord(w.book, Step(w, op).value.book, op.id)
  {
    hide LoanOk, Accrue, FundFromPool, Forfeit;
    if op.CallApplyLateFees? {
      AccrueShape(w.book.loans[op.id], w.now);
    }
  }

  lemma StepTouchesOne(w: World, op: Op)
    requires BookOk(w.book) && Step(w, op).Ok?
    ensures OneRecord(w.book, Step(w, op).value.book, Target(w, op))
  {
    hide LoanOk, CreateLoan, RequestLoan, ApproveLoan, CancelLoan;
    hide RepayLoan, RepayInstallment, ApplyLateFees, MarkDefaulted;
    if op.CallCreateLoan? {
      var _, _ := CreateParts(w, op.user, op.vendor, op.total, op.guarantee, op.schedule, op.loanType, op.ctx);
    } else if op.CallRequestLoan? {
      var _ := RequestParts(w, op.user, op.vendor, op.total, op.guarantee, op.schedule, op.loanType, op.ctx);
    } else if op.CallRepayLoan? || op.CallRepayInstallment? {
      PaymentTouchesOne(w, op);
    } else if op.CallApproveLoan? || op.CallCancelLoan? || op.CallApplyLateFees? || op.CallMarkDefaulted? {
      UpkeepTouchesOne(w, op);
    }
  }

  /** The share of loan `id`, if there is one, in a measure. */
  function ShareOf(m: Measure, b: Book, id: nat): int {
    if id in b.loans then Value(m, b.loans[id]) else 0
  }

  /** Every total moves by what happens to the one record. */
  lemma OneRecordMovesTotal(m: Measure, b: Book, b': Book, id: nat)
    requires BookOk(b) && OneRecord(b, b', id)
    ensures Total(m, b') - Total(m, b) == ShareOf(m, b', id) - ShareOf(m, b, id)
  {
    if b'.loans != b.loans || b'.counter != b.counter {
      if id in b.loans {
        SumReplace(m, b.loans, id, b'.loans[id], b.counter);
      } else {
        SumFrame(m, b.loans, b'.loans, b.counter);
      }
    }
  }
}
