/** What a loan costs whom, and what it does to a borrower's score. */
module LendingTheorems {
  import opened Common
  import opened Token
  import opened LoanModel
  import opened ProtocolModel
  import opened Reputation
  import opened ProtocolProofs
  import opened LifecycleProofs
  import P = PoolModel

  // ---------------------------------------------------------------- opening a loan

  lemma FundingMoves(w: World, l: Loan, ctx: Context, v': P.Vault, a: Address)
    requires l.guarantee <= l.total && FundFromPool(w, l, ctx) == Ok(v')
    ensures Bal(v'.bal, a) == Bal(w.vault.bal, a)
                              - (if a == w.setup.pool then l.total - l.guarantee else 0)
                              + (if a == l.vendor then l.total - l.guarantee else 0)
  {
    if l.guarantee < l.total {
      TransferMoves(w.vault.bal, w.setup.pool, l.vendor, l.total - l.guarantee);
    }
  }

  /** Opening a loan takes the guarantee from the borrower into escrow and the rest of the price
      from the pool to the vendor; nobody else's balance moves. */
  lemma OpeningMovesMoney(w: World, user: Address, vendor: Address, total: int, guarantee: int,
                          schedule: seq<Installment>, loanType: LoanType, ctx: Context, a: Address)
    requires w.book.counter + 1 !in w.book.loans
    requires CreateLoan(w, user, vendor, total, guarantee, schedule, loanType, ctx).Ok?
    ensures
      var bal := CreateLoan(w, user, vendor, total, guarantee, schedule, loanType, ctx).value.vault.bal;
      Bal(bal, a) == Bal(w.vault.bal, a)
                     - (if a == user then guarantee else 0) + (if a == w.setup.credit then guarantee else 0)
                     - (if a == w.setup.pool then total - guarantee else 0)
                     + (if a == vendor then total - guarantee else 0)
  {
    var l, bal := CreateParts(w, user, vendor, total, guarantee, schedule, loanType, ctx);
    TransferMoves(w.vault.bal, user, w.setup.credit, guarantee);
    FundingMoves(w.(vault := w.vault.(bal := bal)), l, ctx,
                 CreateLoan(w, user, vendor, total, guarantee, schedule, loanType, ctx).value.vault, a);
  }

  // ---------------------------------------------------------------- two ways to open a loan

  function RequestThenApprove(w: World, user: Address, vendor: Address, total: int, guarantee: int,
                              schedule: seq<Installment>, loanType: LoanType, ctx: Context): Result<World>
  {
    var requested :- RequestLoan(w, user, vendor, total, guarantee, schedule, loanType, ctx);
    ApproveLoan(requested, w.admin, requested.book.counter, ctx)
  }

  /** Both routes build the same record, but for its status. */
  lemma SameTerms(b: Book, now: nat, user: Address, vendor: Address, total: int, guarantee: int,
                  schedule: seq<Installment>, score: nat, loanType: LoanType, ctx: Context)
    ensures
      var asked := BuildLoan(b, now, user, vendor, total, guarantee, schedule, score, Pending, loanType, ctx);
      var made := BuildLoan(b, now, user, vendor, total, guarantee, schedule, score, Active, loanType, ctx);
      && asked.Ok? == made.Ok?
      && (asked.Ok? ==> made.value == asked.value.(status := Active)
                        && ctx.vendorActive && ValidateGuarantee(ctx.params, total, guarantee).Ok?
                        && asked.value.id == b.counter + 1 && asked.value.fundedAt == 0
                        && asked.value.borrower == user && asked.value.total == total
                        && asked.value.guarantee == guarantee && asked.value.status.Pending?
                        && asked.value.schedule == schedule)
  {
  }

  /** Entering a Pending record and activating it is entering it Active. */
  lemma SameBook(b: Book, l: Loan, now: nat)
    requires l.id !in b.loans
    ensures
      var made := l.(status := Active, fundedAt := now);
      var asked := WriteLoan(b, l);
      && (EnterActive(b, made).Ok? <==> asked.Ok? && AddDebt(asked.value, l.borrower, l.remaining).Ok?)
      && (EnterActive(b, made).Ok? ==>
            WriteLoan(AddDebt(asked.value, l.borrower, l.remaining).value, made) == EnterActive(b, made))
  {
    if WriteLoan(b, l).Ok? && AddDebt(b, l.borrower, l.remaining).Ok? {
      var made := l.(status := Active, fundedAt := now);
      assert b.loans[l.id := l][l.id := made] == b.loans[l.id := made];
    }
  }

  /** The writes of a request, and those of an approval. */
  function Escrow(w: World, l: Loan): Result<World> {
    var bal :- Transfer(w.vault.bal, l.borrower, w.setup.credit, l.guarantee);
    var book :- WriteLoan(w.book.(counter := l.id), l);
    Ok(w.(book := book, vault := w.vault.(bal := bal)))
  }

  function Activate(w: World, l: Loan, ctx: Context): Result<World> {
    var book :- AddDebt(w.book, l.borrower, l.remaining);
    var vault :- FundFromPool(w, l, ctx);
    var stored :- WriteLoan(book, l.(status := Active, fundedAt := w.now));
    Ok(w.(book := stored, vault := vault))
  }

  /** The pool pays the same, whatever the book and the status. */
  lemma SameFunding(w: World, book: Book, l: Loan, made: Loan, ctx: Context)
    requires made == l.(status := made.status, fundedAt := made.fundedAt)
    ensures FundFromPool(w, l, ctx) == FundFromPool(w.(book := book), made, ctx)
  {
  }

  /** Whatever the checks say, the writes of the two routes agree. */
  lemma SameWrites(w: World, l: Loan, ctx: Context)
    requires l.id !in w.book.loans
    ensures
      var both := var asked :- Escrow(w, l); Activate(asked, l, ctx);
      var once := OpenLoan(w.(book := w.book.(counter := l.id)), l.(status := Active, fundedAt := w.now), ctx);
      both.Ok? == once.Ok? && (both.Ok? ==> both == once)
  {
    hide FundFromPool;
    SameBook(w.book.(counter := l.id), l, w.now);
    var made := l.(status := Active, fundedAt := w.now);
    if Escrow(w, l).Ok? {
      var asked := Escrow(w, l).value;
      SameFunding(asked, w.book.(counter := l.id), l, made, ctx);
    }
  }

  lemma RequestIs(w: World, user: Address, vendor: Address, total: int, guarantee: int,
                  schedule: seq<Installment>, loanType: LoanType, ctx: Context, l: Loan)
    requires BuildLoan(w.book, w.now, user, vendor, total, guarantee, schedule, Score(w.scores, user), Pending,
                       loanType, ctx) == Ok(l)
    requires l.borrower == user && l.guarantee == guarantee && ValidateGuarantee(ctx.params, total, guarantee).Ok?
    requires Signs(w.setup, user) && ValidateReputation(ctx.params, Score(w.scores, user)).Ok?
    ensures RequestLoan(w, user, vendor, total, guarantee, schedule, loanType, ctx) == Escrow(w, l)
  {
  }

  /** A schedule that can still be approved: not empty, and all of it ahead. */
  predicate Ahead(schedule: seq<Installment>, now: nat) {
    schedule != [] && forall i :: 0 <= i < |schedule| ==> schedule[i].dueDate > now
  }

  lemma ApproveIs(w: World, l: Loan, ctx: Context)
    requires FindLoan(w.book, l.id) == Ok(l) && l.status.Pending? && Ahead(l.schedule, w.now) && ctx.vendorActive
    requires ValidateReputation(ctx.params, Score(w.scores, l.borrower)).Ok?
    ensures ApproveLoan(w, w.admin, l.id, ctx)
         == var _ :- ValidateLiquidity(w.vault.pool, l.total - l.guarantee); Activate(w, l, ctx)
  {
  }

  lemma TooLateToApprove(w: World, l: Loan, ctx: Context)
    requires FindLoan(w.book, l.id) == Ok(l) && !Ahead(l.schedule, w.now)
    ensures ApproveLoan(w, w.admin, l.id, ctx).Err?
  {
  }

  /** A request approved at once is a creation. It is accepted in the same cases, except that an
      approval also wants a schedule that lies ahead, and leaves the same world. */
  lemma ApprovedRequestIsCreation(w: World, user: Address, vendor: Address, total: int, guarantee: int,
                                  schedule: seq<Installment>, loanType: LoanType, ctx: Context)
    requires w.book.counter + 1 !in w.book.loans
    ensures
      var both := RequestThenApprove(w, user, vendor, total, guarantee, schedule, loanType, ctx);
      var once := CreateLoan(w, user, vendor, total, guarantee, schedule, loanType, ctx);
      && (both.Ok? <==> once.Ok? && schedule != [] && forall i :: 0 <= i < |schedule| ==> schedule[i].dueDate > w.now)
      && (both.Ok? ==> both == once)
  {
    hide Activate, OpenLoan, ApproveLoan, BuildLoan;
    var score := Score(w.scores, user);
    SameTerms(w.book, w.now, user, vendor, total, guarantee, schedule, score, loanType, ctx);
    var asked := BuildLoan(w.book, w.now, user, vendor, total, guarantee, schedule, score, Pending, loanType, ctx);
    if asked.Ok? && Signs(w.setup, user) && ValidateReputation(ctx.params, score).Ok? {
      var l := asked.value;
      RequestIs(w, user, vendor, total, guarantee, schedule, loanType, ctx, l);
      SameWrites(w, l, ctx);
      if Escrow(w, l).Ok? {
        if Ahead(schedule, w.now) {
          ApproveIs(Escrow(w, l).value, l, ctx);
        } else {
          TooLateToApprove(Escrow(w, l).value, l, ctx);
        }
      }
    }
  }

  /** An approval does not check the credit limit again. It keeps the borrower's debt within a
      limit if and only if there was room for the loan just before it. */
  lemma ApprovalKeepsLimitIff(w: World, caller: Address, id: nat, ctx: Context)
    requires WorldOk(w) && ApproveLoan(w, caller, id, ctx).Ok?
    ensures
      var l, b' := w.book.loans[id], ApproveLoan(w, caller, id, ctx).value.book;
      var score := Score(w.scores, l.borrower);
      var limit :=
        if score >= 90 then 10_000 else if score >= 75 then 5_000 else if score >= 60 then 2_500 else 1_000;
      Debt(b', l.borrower) <= limit <==> Debt(w.book, l.borrower) + l.remaining <= limit
  {
    hide FundFromPool, LoanOk;
  }

  // ---------------------------------------------------------------- scores

  /** `amount` is all that loan `id` owes once its late fees have accrued. */
  predicate Settles(w: World, id: nat, amount: int) {
    id in w.book.loans && Accrue(w.book.loans[id], w.now).Ok?
    && Accrue(w.book.loans[id], w.now).value.loan.remaining == amount
  }

  /** Settling a loan earns 15 points before its last installment is due, and 10 from then on. */
  function Points(schedule: seq<Installment>, now: nat): nat {
    if schedule != [] && now < schedule[|schedule| - 1].dueDate then 15 else 10
  }

  lemma RewardInPoints(l: Loan, now: nat)
    ensures Reward(now, l) == Points(l.schedule, now)
  {
  }

  /** The reward of `a` when the call settles a loan of theirs. */
  function Earned(w: World, op: Op, a: Address): nat {
    if (op.CallRepayLoan? || op.CallRepayInstallment?) && op.borrower == a && Settles(w, op.id, op.amount)
    then Points(w.book.loans[op.id].schedule, w.now)
    else 0
  }

  /** The penalty of `a` when the call marks a loan of theirs defaulted: the small one up to the
      threshold for large loans, the large one above it. */
  function Lost(w: World, op: Op, a: Address): nat {
    if op.CallMarkDefaulted? && op.id in w.book.loans && w.book.loans[op.id].borrower == a then
      if w.book.loans[op.id].total <= op.params.largeLoanThreshold
      then op.params.defaultPenalty
      else op.params.largeLoanDefaultPenalty
    else 0
  }

  lemma SettleScores(w: World, l: Loan, amount: int, paid: Loan, w': World)
    requires Settle(w, l, amount, paid) == Ok(w')
    ensures if paid.status.Paid? then IncreaseScore(w.scores, l.borrower, Reward(w.now, l)) == Ok(w'.scores)
            else w'.scores == w.scores
  {
  }

  lemma SettlingEarns(w: World, l: Loan, a: Accrual, book: Book, amount: int, paid: Loan, w': World, who: Address)
    requires l.status.Active? && Accrue(l, w.now) == Ok(a)
    requires paid == Pay(a.loan, amount).(schedule := paid.schedule)
    requires Settle(w.(book := book), a.loan, amount, paid) == Ok(w')
    ensures Score(w'.scores, who)
         == Score(w.scores, who) + if who == l.borrower && a.loan.remaining == amount then Reward(w.now, l) else 0
  {
    AccrueShape(l, w.now);
    SettleScores(w.(book := book), a.loan, amount, paid, w');
  }

  lemma PaymentEarns(w: World, op: Op, who: Address)
    requires Step(w, op).Ok? && (op.CallRepayLoan? || op.CallRepayInstallment?)
    ensures Score(Step(w, op).value.scores, who) == Score(w.scores, who) + Earned(w, op, who)
  {
    var l := w.book.loans[op.id];
    var a := Accrue(l, w.now).value;
    var paid := Pay(a.loan, op.amount);
    SettlingEarns(w, l, a, BookFee(w.book, op.borrower, a.fee).value, op.amount,
                  if op.CallRepayLoan? then paid else paid.(schedule := MarkPaid(paid.schedule, op.i, w.now)),
                  Step(w, op).value, who);
    RewardInPoints(l, w.now);
  }

  /** What a default costs its borrower, by the size of the loan; nobody else's score moves. */
  lemma DefaultCostsPoints(w: World, id: nat, params: Params, who: Address)
    requires MarkDefaulted(w, id, params).Ok?
    ensures id in w.book.loans
    ensures
      var l, w' := w.book.loans[id], MarkDefaulted(w, id, params).value;
      && (l.total <= params.largeLoanThreshold ==>
            Score(w'.scores, l.borrower) == Score(w.scores, l.borrower) - params.defaultPenalty)
      && (l.total > params.largeLoanThreshold ==>
            Score(w'.scores, l.borrower) == Score(w.scores, l.borrower) - params.largeLoanDefaultPenalty)
      && (who != l.borrower ==> Score(w'.scores, who) == Score(w.scores, who))
  {
    DefaultParts(w, id, params, MarkDefaulted(w, id, params).value);
  }

  /** The protocol moves a score only when a loan ends: up by the reward for settling it, which is
      15 before the last due date and 10 after, down by the penalty for a default. */
  lemma ScoresMoveOnlyWhenLoansEnd(w: World, op: Op, who: Address)
    requires Step(w, op).Ok? && !op.OutsideScore?
    ensures Score(Step(w, op).value.scores, who) == Score(w.scores, who) + Earned(w, op, who) - Lost(w, op, who)
  {
    if op.CallRepayLoan? || op.CallRepayInstallment? {
      PaymentEarns(w, op, who);
    }
  }
}
