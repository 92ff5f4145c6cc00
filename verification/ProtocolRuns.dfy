/** What holds of the composed protocol over every run: every sequence of calls, accepted or
    rejected, from any deployed world. */
module ProtocolRuns {
  import opened Common
  import opened LoanModel
  import opened ProtocolModel
  import opened BookProofs
  import opened ProtocolProofs
  import opened LifecycleProofs
  import P = PoolModel
  import FL = FundingLog

  // ---------------------------------------------------------------- the funding log

  lemma RepaymentSameLog(c: P.Setup, v: P.Vault, l: Loan, amount: int, paid: Loan)
    requires MovePayment(c, v, l, amount, paid).Ok?
    ensures FL.SameLog(v.pool, MovePayment(c, v, l, amount, paid).value.pool)
  {
  }

  lemma FundFromPoolKeepsLog(w: World, l: Loan, ctx: Context)
    requires FL.WindowOk(w.vault.pool, w.ledger) && 0 <= P.Available(w.vault.pool) && FundFromPool(w, l, ctx).Ok?
    ensures FL.WindowOk(FundFromPool(w, l, ctx).value.pool, w.ledger)
  {
    var v' := FundFromPool(w, l, ctx).value;
    if l.total - l.guarantee > 0 {
      FL.FundKeepsLog(w.setup, w.vault, w.ledger, w.ledger, l.vendor, l.total - l.guarantee, ctx.poolVendorOk, v');
    }
  }

  lemma RepaySameLog(w: World, borrower: Address, id: nat, amount: int)
    requires RepayLoan(w, borrower, id, amount).Ok?
    ensures FL.SameLog(w.vault.pool, RepayLoan(w, borrower, id, amount).value.vault.pool)
    ensures RepayLoan(w, borrower, id, amount).value.ledger == w.ledger
  {
    var a := Accrue(w.book.loans[id], w.now).value;
    RepaymentSameLog(w.setup, w.vault, a.loan, amount, Pay(a.loan, amount));
  }

  lemma InstallmentSameLog(w: World, borrower: Address, id: nat, i: nat, amount: int)
    requires RepayInstallment(w, borrower, id, i, amount).Ok?
    ensures FL.SameLog(w.vault.pool, RepayInstallment(w, borrower, id, i, amount).value.vault.pool)
    ensures RepayInstallment(w, borrower, id, i, amount).value.ledger == w.ledger
  {
    var a := Accrue(w.book.loans[id], w.now).value;
    var paid := Pay(a.loan, amount);
    RepaymentSameLog(w.setup, w.vault, a.loan, amount, paid.(schedule := MarkPaid(paid.schedule, i, w.now)));
  }

  lemma DefaultSameLog(w: World, id: nat, params: Params)
    requires MarkDefaulted(w, id, params).Ok?
    ensures FL.SameLog(w.vault.pool, MarkDefaulted(w, id, params).value.vault.pool)
    ensures MarkDefaulted(w, id, params).value.ledger == w.ledger
  {
  }

  lemma ProviderSameLog(w: World, op: Op)
    requires op.CallDeposit? || op.CallWithdraw? || op.CallSetOutflowCap? || op.CallSetExposureCap?
    requires Step(w, op).Ok?
    ensures FL.SameLog(w.vault.pool, Step(w, op).value.vault.pool) && w.ledger <= Step(w, op).value.ledger
  {
  }

  /** Only lending touches the log, and no step turns the ledger back. */
  lemma StepSameLog(w: World, op: Op)
    requires Step(w, op).Ok? && !op.CallCreateLoan? && !op.CallApproveLoan?
    ensures FL.SameLog(w.vault.pool, Step(w, op).value.vault.pool) && w.ledger <= Step(w, op).value.ledger
  {
    hide RepayLoan, RepayInstallment, MarkDefaulted, Accrue;
    if op.CallDeposit? || op.CallWithdraw? || op.CallSetOutflowCap? || op.CallSetExposureCap? {
      ProviderSameLog(w, op);
    } else if op.CallRepayLoan? {
      RepaySameLog(w, op.borrower, op.id, op.amount);
    } else if op.CallRepayInstallment? {
      InstallmentSameLog(w, op.borrower, op.id, op.i, op.amount);
    } else if op.CallMarkDefaulted? {
      DefaultSameLog(w, op.id, op.params);
    }
  }

  /** The stored outflow window and exposures stay those of the funding log. */
  lemma StepKeepsLog(w: World, op: Op)
    requires WorldOk(w) && FL.WindowOk(w.vault.pool, w.ledger) && Step(w, op).Ok?
    ensures FL.WindowOk(Step(w, op).value.vault.pool, Step(w, op).value.ledger)
  {
    if op.CallCreateLoan? {
      var l, bal := CreateParts(w, op.user, op.vendor, op.total, op.guarantee, op.schedule, op.loanType, op.ctx);
      FundFromPoolKeepsLog(w.(vault := w.vault.(bal := bal)), l, op.ctx);
    } else if op.CallApproveLoan? {
      FundFromPoolKeepsLog(w, w.book.loans[op.id], op.ctx);
    } else {
      StepSameLog(w, op);
      FL.SameLogKeepsWindow(w.vault.pool, Step(w, op).value.vault.pool, w.ledger, Step(w, op).value.ledger);
    }
  }

  // ---------------------------------------------------------------- every run

  ghost predicate AllOk(w: World) {
    WorldOk(w) && IndexOk(w.book) && FL.WindowOk(w.vault.pool, w.ledger)
  }

  lemma InitialAllOk(w: World)
    requires Initial(w)
    ensures AllOk(w) && 0 <= Slack(w)
  {
    InitialOk(w);
    FL.EmptyWindowOk(w.ledger);
  }

  lemma ApplyFollows(w: World, op: Op)
    requires AllOk(w)
    ensures AllOk(Apply(w, op)) && Follows(w, Apply(w, op))
  {
    if Step(w, op).Ok? {
      StepFollows(w, op);
      StepIsBookStep(w, op);
      BookStepKeepsIndex(w.book, Step(w, op).value.book);
      StepKeepsLog(w, op);
    }
  }

  /** The whole-run invariant: however the calls go, the world stays in order, the credit line's
      surplus never shrinks, and the pool's slack shrinks by no more than forfeited guarantees. */
  lemma {:induction false} RunFollows(w: World, ops: seq<Op>)
    requires AllOk(w)
    ensures AllOk(Run(w, ops)) && Follows(w, Run(w, ops))
  {
    if ops != [] {
      RunFollows(w, ops[..|ops| - 1]);
      ApplyFollows(Run(w, ops[..|ops| - 1]), ops[|ops| - 1]);
    }
  }

  /** A world some run reaches from deployment. */
  ghost predicate Reachable(w: World) {
    exists w0: World, ops: seq<Op> :: Initial(w0) && w == Run(w0, ops)
  }

  /** Every reachable world is in order. */
  lemma ReachableOk(w: World)
    requires Reachable(w)
    ensures AllOk(w)
  {
    var w0: World, ops: seq<Op> :| Initial(w0) && w == Run(w0, ops);
    InitialAllOk(w0);
    RunFollows(w0, ops);
  }

  lemma InitialReachable(w: World)
    requires Initial(w)
    ensures Reachable(w)
  {
    assert w == Run(w, []);
  }

  lemma ReachableStep(w: World, op: Op)
    requires Reachable(w)
    ensures Reachable(Apply(w, op))
  {
    var w0: World, ops: seq<Op> :| Initial(w0) && w == Run(w0, ops);
    assert (ops + [op])[..|ops|] == ops;
    assert Run(w0, ops + [op]) == Apply(w, op);
  }
}
