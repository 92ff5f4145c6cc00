/** Whether the pool's tokens back the liquidity it counts as available. */
module BackingTheorems {
  import opened Common
  import opened LoanModel
  import opened Token
  import opened ProtocolModel
  import opened BookProofs
  import opened ProtocolProofs
  import opened ProtocolRuns
  import P = PoolModel

  /** In every reachable world, the balance and the guarantees forfeited so far together cover
      the available liquidity. */
  lemma BackedUpToForfeits(w: World)
    requires Reachable(w)
    ensures PoolBalance(w) + Total(Forfeited, w.book) >= P.Available(w.vault.pool) >= 0
  {
    ReachableOk(w);
  }

  lemma {:induction false} NoneForfeited(loans: map<nat, Loan>, n: nat)
    requires forall i :: i in loans ==> !loans[i].status.Defaulted?
    ensures Sum(Forfeited, loans, n) == 0
  {
    if n > 0 {
      NoneForfeited(loans, n - 1);
    }
  }

  /** Without defaults the balance alone covers it. */
  lemma BackedWithoutDefaults(w: World)
    requires Reachable(w) && forall id :: id in w.book.loans ==> !w.book.loans[id].status.Defaulted?
    ensures PoolBalance(w) >= P.Available(w.vault.pool)
  {
    ReachableOk(w);
    NoneForfeited(w.book.loans, w.book.counter);
  }

  /** When a default does not shrink what the pool holds beyond its available liquidity: if and
      only if the locked liquidity does not exceed the loan's uncovered principal, or is small
      against the guarantee. */
  lemma DefaultKeepsSlackIff(w: World, id: nat, params: Params)
    requires WorldOk(w) && MarkDefaulted(w, id, params).Ok?
    ensures
      var l, locked := w.book.loans[id], w.vault.pool.lockedLiquidity;
      Slack(MarkDefaulted(w, id, params).value) >= Slack(w)
      <==> locked <= Shortfall(l) || (locked < l.guarantee && 2 * locked <= l.guarantee + Shortfall(l))
  {
    hide MarkDefaulted, Forfeit, WriteOff, BookOk;
    DefaultParts(w, id, params, MarkDefaulted(w, id, params).value);
    LoanIsOk(w, id);
    ForfeitEffect(w.setup, w.vault, w.book.loans[id]);
  }

  /** When the balance covers the available liquidity after a default, exactly: the slack before
      it, the guarantee and the loss taken off the total must make up for the recovered part,
      which counts twice, and the loss taken off the lock. */
  lemma DefaultIsBackedIff(w: World, id: nat, params: Params)
    requires WorldOk(w) && MarkDefaulted(w, id, params).Ok?
    ensures
      var l, p, w' := w.book.loans[id], w.vault.pool, MarkDefaulted(w, id, params).value;
      var recovered := Min(l.guarantee, p.lockedLiquidity);
      PoolBalance(w') >= P.Available(w'.vault.pool)
      <==> Slack(w) + l.guarantee + Min(Shortfall(l), p.totalLiquidity + recovered)
           >= 2 * recovered + Min(Shortfall(l), p.lockedLiquidity - recovered)
  {
    hide MarkDefaulted, Forfeit, WriteOff, BookOk;
    DefaultParts(w, id, params, MarkDefaulted(w, id, params).value);
    LoanIsOk(w, id);
    ForfeitEffect(w.setup, w.vault, w.book.loans[id]);
  }

  lemma {:induction false} OnlyOneActive(loans: map<nat, Loan>, n: nat, id: nat)
    requires forall i :: i in loans ==> LoanOk(loans[i])
    requires id in loans && loans[id].status.Active? && 1 <= id <= n && Sum(Running, loans, n) <= 1
    ensures Sum(Exposure, loans, n) == Shortfall(loans[id])
  {
    SumBounds(Running, loans, n - 1);
    if id == n {
      NoneRunning(loans, n - 1);
    } else {
      OnlyOneActive(loans, n - 1, id);
    }
  }

  lemma {:induction false} NoneRunning(loans: map<nat, Loan>, n: nat)
    requires forall i :: i in loans ==> LoanOk(loans[i])
    requires Sum(Running, loans, n) <= 0
    ensures Sum(Exposure, loans, n) == 0
  {
    if n > 0 {
      SumBounds(Running, loans, n - 1);
      NoneRunning(loans, n - 1);
    }
  }

  /** At no point of the run is more than one loan Active. */
  predicate OneAtATime(w: World, ops: seq<Op>) {
    Total(Running, Run(w, ops).book) <= 1 && (ops == [] || OneAtATime(w, ops[..|ops| - 1]))
  }

  lemma ApplyKeepsBacking(w: World, op: Op)
    requires WorldOk(w) && Total(Running, w.book) <= 1
    ensures Slack(w) <= Slack(Apply(w, op))
  {
    if Step(w, op).Ok? {
      if op.CallMarkDefaulted? {
        OnlyOneActive(w.book.loans, w.book.counter, op.id);
        DefaultKeepsSlackIff(w, op.id, op.params);
      } else {
        StepFollows(w, op);
      }
    }
  }

  /** With at most one Active loan at a time, defaults included, the balance alone always covers
      the available liquidity. */
  lemma {:induction false} BackedOneAtATime(w: World, ops: seq<Op>)
    requires AllOk(w) && 0 <= Slack(w) && OneAtATime(w, ops)
    ensures PoolBalance(Run(w, ops)) >= P.Available(Run(w, ops).vault.pool)
  {
    if ops != [] {
      var front := ops[..|ops| - 1];
      BackedOneAtATime(w, front);
      RunFollows(w, front);
      ApplyKeepsBacking(Run(w, front), ops[|ops| - 1]);
    }
  }

  /** A backed pool can pay: no withdrawal that passes the accounting fails for want of tokens, ... */
  lemma BackedWithdrawalPays(w: World, provider: Address, shares: int)
    requires WorldOk(w) && PoolBalance(w) >= P.Available(w.vault.pool)
    ensures Step(w, CallWithdraw(provider, shares)) != Err(InsufficientBalance)
  {
  }

  lemma FundingPays(w: World, l: Loan, ctx: Context)
    requires PoolBalance(w) >= P.Available(w.vault.pool)
    ensures FundFromPool(w, l, ctx) != Err(InsufficientBalance)
  {
  }

  /** ... no approval, ... */
  lemma BackedFundingPays(w: World, caller: Address, id: nat, ctx: Context)
    requires WorldOk(w) && PoolBalance(w) >= P.Available(w.vault.pool)
    ensures Step(w, CallApproveLoan(caller, id, ctx)) != Err(InsufficientBalance)
  {
    hide BookOk, FundFromPool;
    if id in w.book.loans {
      FundingPays(w, w.book.loans[id], ctx);
    }
  }

  lemma OpeningPays(w: World, l: Loan, ctx: Context)
    requires w.setup.pool != w.setup.credit && Signs(w.setup, l.borrower)
    requires PoolBalance(w) >= P.Available(w.vault.pool) && OpenLoan(w, l, ctx) == Err(InsufficientBalance)
    requires 0 <= l.guarantee
    ensures Bal(w.vault.bal, l.borrower) < l.guarantee
  {
    hide FundFromPool;
    TransferAccepted(w.vault.bal, l.borrower, w.setup.credit, l.guarantee);
    if Transfer(w.vault.bal, l.borrower, w.setup.credit, l.guarantee).Ok? {
      var bal := Transfer(w.vault.bal, l.borrower, w.setup.credit, l.guarantee).value;
      FundingPays(w.(vault := w.vault.(bal := bal)), l, ctx);
    }
  }

  lemma Underwritten(w: World, user: Address, vendor: Address, total: int, guarantee: int,
                     schedule: seq<Installment>, loanType: LoanType, ctx: Context)
    ensures
      var r := Underwrite(w, user, vendor, total, guarantee, schedule, loanType, ctx);
      && r != Err(InsufficientBalance)
      && (r.Ok? ==> Signs(w.setup, user) && r.value.borrower == user && r.value.guarantee == guarantee > 0)
  {
  }

  /** ... and no creation, unless it is the borrower who lacks the guarantee. */
  lemma BackedCreationPays(w: World, user: Address, vendor: Address, total: int, guarantee: int,
                           schedule: seq<Installment>, loanType: LoanType, ctx: Context)
    requires WorldOk(w) && PoolBalance(w) >= P.Available(w.vault.pool)
    requires Step(w, CallCreateLoan(user, vendor, total, guarantee, schedule, loanType, ctx))
          == Err(InsufficientBalance)
    ensures Bal(w.vault.bal, user) < guarantee
  {
    hide BookOk, Underwrite, OpenLoan;
    Underwritten(w, user, vendor, total, guarantee, schedule, loanType, ctx);
    var l := Underwrite(w, user, vendor, total, guarantee, schedule, loanType, ctx);
    if l.Ok? {
      OpeningPays(w.(book := w.book.(counter := l.value.id)), l.value, ctx);
    }
  }
}
