/** The life of a guarantee: it leaves escrow once, and to whom. */
module GuaranteeTheorems {
  import opened Common
  import opened Token
  import opened LoanModel
  import opened ProtocolModel
  import opened BookProofs
  import opened ProtocolProofs
  import opened LifecycleProofs
  import opened ProtocolRuns
  import opened ProtocolTheorems
  import PP = PoolProofs
  import LP = LoanProofs

  /** The guarantee of loan `id` is in escrow. */
  predicate Held(b: Book, id: nat) {
    id in b.loans && (b.loans[id].status.Pending? || b.loans[id].status.Active?)
  }

  predicate Closed(b: Book, id: nat) {
    id in b.loans && !Held(b, id)
  }

  /** One call closes a loan at most, opens no closed one and leaves closed records as they are. */
  lemma ApplyCloses(w: World, op: Op, id: nat)
    requires AllOk(w)
    ensures id in w.book.loans ==> id in Apply(w, op).book.loans
    ensures Closed(w.book, id) ==> Apply(w, op).book.loans[id] == w.book.loans[id]
    ensures id !in w.book.loans && id in Apply(w, op).book.loans ==> Held(Apply(w, op).book, id)
  {
    if Step(w, op).Ok? {
      StepIsBookStep(w, op);
      if id in w.book.loans {
        assert Lifecycle(w.book.loans[id], Apply(w, op).book.loans[id]);
      }
    }
  }

  /** A closed record never changes again. */
  lemma {:induction false} ClosedIsForever(w: World, ops: seq<Op>, id: nat)
    requires AllOk(w) && Closed(w.book, id)
    ensures Closed(Run(w, ops).book, id) && Run(w, ops).book.loans[id] == w.book.loans[id]
  {
    if ops != [] {
      var front := ops[..|ops| - 1];
      ClosedIsForever(w, front, id);
      RunFollows(w, front);
      ApplyCloses(Run(w, front), ops[|ops| - 1], id);
    }
  }

  /** How often the guarantee of `id` leaves escrow in a run. */
  function Releases(w: World, ops: seq<Op>, id: nat): nat {
    if ops == [] then 0
    else
      var front := ops[..|ops| - 1];
      Releases(w, front, id) + if Held(Run(w, front).book, id) && !Held(Run(w, ops).book, id) then 1 else 0
  }

  /** Each guarantee leaves escrow at most once: exactly once if its loan got closed in the run,
      not at all as long as it is open. */
  lemma {:induction false} ReleasedExactlyOnce(w: World, ops: seq<Op>, id: nat)
    requires AllOk(w) && !Closed(w.book, id)
    ensures Releases(w, ops, id) == (if Closed(Run(w, ops).book, id) then 1 else 0)
  {
    if ops != [] {
      var front, op := ops[..|ops| - 1], ops[|ops| - 1];
      ReleasedExactlyOnce(w, front, id);
      RunFollows(w, front);
      ApplyCloses(Run(w, front), op, id);
    }
  }

  // ---------------------------------------------------------------- the money of one guarantee

  /** By how much the credit line's balance changes in a call about loan `id`. */
  function Moved(w: World, op: Op, id: nat): int {
    if id != 0 && Target(w, op) == id then CreditBalance(Apply(w, op)) - CreditBalance(w) else 0
  }

  /** What the credit line takes in on account of loan `id` over a run, and what it pays out. */
  function PaidIn(w: World, ops: seq<Op>, id: nat): int {
    if ops == [] then 0
    else
      var front := ops[..|ops| - 1];
      PaidIn(w, front, id) + Max(0, Moved(Run(w, front), ops[|ops| - 1], id))
  }

  function PaidOut(w: World, ops: seq<Op>, id: nat): int {
    if ops == [] then 0
    else
      var front := ops[..|ops| - 1];
      PaidOut(w, front, id) + Max(0, -Moved(Run(w, front), ops[|ops| - 1], id))
  }

  /** Absent gifts, a call moves the credit line's balance by what it does to the escrow of its loan. */
  lemma ApplyMovesEscrow(w: World, op: Op, id: nat)
    requires AllOk(w) && FeesElsewhere(w.setup) && VendorsElsewhere(w) && SendsNoGift(w.setup, op) && id != 0
    ensures Moved(w, op, id) == ShareOf(Escrowed, Apply(w, op).book, id) - ShareOf(Escrowed, w.book, id)
  {
    hide Step, BookOk;
    QuietApply(w, op);
    if Step(w, op).Ok? {
      StepTouchesOne(w, op);
      OneRecordMovesTotal(Escrowed, w.book, Apply(w, op).book, Target(w, op));
    }
  }

  /** The escrow of one loan: nothing before it exists, its guarantee while it is open, nothing
      once it is closed. */
  lemma EscrowOfLoan(w: World, op: Op, id: nat)
    requires AllOk(w)
    ensures id in w.book.loans ==> w.book.loans[id].guarantee > 0
    ensures ShareOf(Escrowed, w.book, id) == if Held(w.book, id) then w.book.loans[id].guarantee else 0
    ensures id in w.book.loans ==>
              id in Apply(w, op).book.loans && Apply(w, op).book.loans[id].guarantee == w.book.loans[id].guarantee
  {
    hide Step;
    if Step(w, op).Ok? {
      StepIsBookStep(w, op);
      if id in w.book.loans {
        assert Lifecycle(w.book.loans[id], Apply(w, op).book.loans[id]);
      }
    }
  }

  /** How far the money of loan `id` has come: nothing in before it exists, its guarantee in after
      that, and out again exactly when it is closed. */
  predicate Balanced(b: Book, id: nat, paidIn: int, paidOut: int) {
    && paidIn == (if id in b.loans then b.loans[id].guarantee else 0)
    && paidOut == (if Closed(b, id) then b.loans[id].guarantee else 0)
  }

  lemma ApplyBalances(w: World, op: Op, id: nat, paidIn: int, paidOut: int)
    requires AllOk(w) && AllOk(Apply(w, op))
    requires FeesElsewhere(w.setup) && VendorsElsewhere(w) && SendsNoGift(w.setup, op) && id != 0
    requires Balanced(w.book, id, paidIn, paidOut)
    ensures Balanced(Apply(w, op).book, id, paidIn + Max(0, Moved(w, op, id)), paidOut + Max(0, -Moved(w, op, id)))
  {
    hide AllOk, Apply, Moved, VendorsElsewhere;
    ApplyMovesEscrow(w, op, id);
    EscrowOfLoan(w, op, id);
    EscrowOfLoan(Apply(w, op), op, id);
    ApplyCloses(w, op, id);
  }

  /** The guarantee of a loan enters the credit line once, with the loan, and is paid out at most
      once: all of it if the loan has been closed, none of it as long as it is open. */
  lemma {:induction false} GuaranteeIsPaidOutOnce(w: World, ops: seq<Op>, id: nat)
    requires AllOk(w) && FeesElsewhere(w.setup) && VendorsElsewhere(w) && id !in w.book.loans && id != 0
    requires forall i :: 0 <= i < |ops| ==> SendsNoGift(w.setup, ops[i])
    ensures Balanced(Run(w, ops).book, id, PaidIn(w, ops, id), PaidOut(w, ops, id))
  {
    hide AllOk, Apply, Moved, VendorsElsewhere, Balanced, SendsNoGift;
    if ops == [] {
      NothingPaidYet(w.book, id);
    } else {
      var front, op := ops[..|ops| - 1], ops[|ops| - 1];
      GuaranteeIsPaidOutOnce(w, front, id);
      RunFollows(w, front);
      RunFollows(w, ops);
      EscrowIsConserved(w, front);
      ApplyBalances(Run(w, front), op, id, PaidIn(w, front, id), PaidOut(w, front, id));
    }
  }

  lemma NothingPaidYet(b: Book, id: nat)
    requires id !in b.loans
    ensures Balanced(b, id, 0, 0)
  {
  }

  // ---------------------------------------------------------------- where it goes

  /** Where it goes: to the borrower on a cancellation, ... */
  lemma CancelRefunds(w: World, caller: Address, id: nat)
    requires WorldOk(w) && CancelLoan(w, caller, id).Ok?
    ensures
      var l, w' := w.book.loans[id], CancelLoan(w, caller, id).value;
      && l.status.Pending? && w'.book.loans[id] == l.(status := Cancelled)
      && Bal(w'.vault.bal, l.borrower) == Bal(w.vault.bal, l.borrower) + l.guarantee
      && CreditBalance(w') == CreditBalance(w) - l.guarantee
  {
    var l := w.book.loans[id];
    TransferMoves(w.vault.bal, w.setup.credit, l.borrower, l.guarantee);
  }

  /** ... to the pool on a default, ... */
  lemma DefaultForfeits(w: World, id: nat, params: Params)
    requires WorldOk(w) && MarkDefaulted(w, id, params).Ok?
    ensures
      var l, w' := w.book.loans[id], MarkDefaulted(w, id, params).value;
      && l.status.Active? && w'.book.loans[id] == l.(status := Defaulted)
      && PoolBalance(w') == PoolBalance(w) + l.guarantee
      && CreditBalance(w') == CreditBalance(w) - l.guarantee
  {
    ForfeitEffect(w.setup, w.vault, w.book.loans[id]);
  }

  /** The record a payment leaves. */
  function LeftOver(w: World, op: Op): Loan
    requires (op.CallRepayLoan? || op.CallRepayInstallment?) && op.id in w.book.loans
    requires Accrue(w.book.loans[op.id], w.now).Ok?
  {
    var paid := Pay(Accrue(w.book.loans[op.id], w.now).value.loan, op.amount);
    if op.CallRepayLoan? then paid else paid.(schedule := MarkPaid(paid.schedule, op.i, w.now))
  }

  lemma PaymentParts(w: World, op: Op, w': World)
    requires (op.CallRepayLoan? || op.CallRepayInstallment?) && BookOk(w.book) && Step(w, op) == Ok(w')
    ensures op.id in w.book.loans && Accrue(w.book.loans[op.id], w.now).Ok?
    ensures
      var l, due := w.book.loans[op.id], Accrue(w.book.loans[op.id], w.now).value.loan;
      && l.status.Active? && l.borrower == op.borrower && Signs(w.setup, op.borrower)
      && 0 < op.amount <= due.remaining && LoanOk(due) && due.status.Active? && due.borrower == op.borrower
      && due.guarantee == l.guarantee
      && MovePayment(w.setup, w.vault, due, op.amount, LeftOver(w, op)) == Ok(w'.vault)
      && w'.book.loans == w.book.loans[op.id := LeftOver(w, op)] && w'.setup == w.setup
  {
    var l := w.book.loans[op.id];
    PaymentTouchesOne(w, op);
    AccrueShape(l, w.now);
    LP.AccrueKeepsLoan(l, w.now);
    SettleParts(w, BookFee(w.book, op.borrower, Accrue(l, w.now).value.fee).value, Accrue(l, w.now).value.loan,
                op.amount, LeftOver(w, op), w');
  }

  /** ... and back to the borrower with the payment that settles the loan, through either entry
      point. A partial payment releases nothing. Pool fees come on top for whoever receives them. */
  lemma PaymentSettles(w: World, op: Op)
    requires WorldOk(w) && (op.CallRepayLoan? || op.CallRepayInstallment?) && Step(w, op).Ok?
    ensures op.id in w.book.loans && Accrue(w.book.loans[op.id], w.now).Ok?
    ensures
      var w', due := Step(w, op).value, Accrue(w.book.loans[op.id], w.now).value.loan;
      var back := if op.amount == due.remaining then due.guarantee else 0;
      var fees := FeePart(Split(due, op.amount));
      && op.id in w'.book.loans && w'.book.loans[op.id] == LeftOver(w, op)
      && (w'.book.loans[op.id].status.Paid? <==> op.amount == due.remaining)
      && Bal(w'.vault.bal, op.borrower) == Bal(w.vault.bal, op.borrower) - op.amount + back
                                           + PP.FeesTo(w.setup, fees, op.borrower)
      && CreditBalance(w') == CreditBalance(w) - back + PP.FeesTo(w.setup, fees, w.setup.credit)
  {
    hide Step, Accrue, MovePayment, PP.FeesTo, BookOk;
    var w' := Step(w, op).value;
    PaymentParts(w, op, w');
    var due := Accrue(w.book.loans[op.id], w.now).value.loan;
    LP.PayKeepsLoan(due, op.amount);
    PaymentMoney(w.setup, w.vault, due, op.amount, LeftOver(w, op), w'.vault);
  }
}
