/** The deployed protocol: the contract objects, the chain's clock, and the host that applies an
    accepted call and rolls a rejected one back. */
module Protocol {
  import opened Common
  import opened Token
  import opened LoanModel
  import opened LoanIndex
  import opened ProtocolModel
  import opened Reputation
  import opened ProtocolRuns
  import P = PoolModel
  import LiquidityPool
  import CreditLine

  /** The records the entry points rely on are in order in every reachable world. */
  lemma ReachableRecords(w: World)
    requires Reachable(w)
    ensures forall id :: id in w.book.loans ==> w.book.loans[id].id == id && LoanOk(w.book.loans[id])
  {
    ReachableOk(w);
  }

  class Chain {
    const credit: CreditLine.CreditLineContract
    const pool: LiquidityPool.PoolContract
    const token: TokenContract
    const index: IndexStore
    const reputation: ReputationContract

    var now: nat
    var ledger: nat

    predicate Wired() {
      && credit.pool == pool && credit.token == token && credit.index == index && credit.reputation == reputation
      && credit.Wired()
    }

    function State(): World
      requires Wired()
      reads this, credit, pool, token, index, reputation
    {
      credit.State(now, ledger)
    }

    /** The objects hold a world that some run reaches, so every theorem about runs applies. */
    ghost predicate Valid()
      reads this, credit, pool, token, index, reputation
    {
      Wired() && Reachable(State())
    }

    /** Deploys the contracts against each other: no deposits and no loans. */
    constructor (setup: P.Setup, admin: Address, balances: Balances, scores: map<Address, nat>, now: nat, ledger: nat)
      requires setup.pool != setup.credit && Signs(setup, admin) && now <= U64_MAX
      requires 0 <= Bal(balances, setup.pool) && 0 <= Bal(balances, setup.credit)
      requires forall a :: a in scores ==> scores[a] <= MAX_SCORE
      ensures Valid() && Initial(State())
      ensures fresh(credit) && fresh(pool) && fresh(token) && fresh(index) && fresh(reputation)
    {
      var balancesHeld := new TokenContract(balances);
      var deployedPool := new LiquidityPool.PoolContract(setup, balancesHeld);
      var pages := new IndexStore();
      var scoreKeeper := new ReputationContract(scores);
      var line := new CreditLine.CreditLineContract(setup, admin, balancesHeld, deployedPool, pages, scoreKeeper);
      this.credit, this.pool, this.token, this.index := line, deployedPool, balancesHeld, pages;
      this.reputation := scoreKeeper;
      this.now, this.ledger := now, ledger;
      new;
      InitialReachable(State());
    }

    /** Discards the writes of a rejected call. */
    method Rollback(w: World)
      requires Wired() && w.setup == credit.setup && w.admin == credit.admin
      modifies this, credit, pool, token, index, reputation
      ensures State() == w
    {
      credit.Restore(w.book);
      pool.Restore(w.vault.pool);
      token.balances := w.vault.bal;
      reputation.scores := w.scores;
      now, ledger := w.now, w.ledger;
    }

    /** A liquidity provider's or the pool administrator's call. */
    method InvokePool(op: Op) returns (r: Result<()>)
      requires Wired() && (op.CallDeposit? || op.CallWithdraw? || op.CallSetOutflowCap? || op.CallSetExposureCap?)
      modifies pool, token
      ensures
        var s := Step(old(State()), op);
        && r == (if s.Ok? then Ok(()) else Err(s.error))
        && (s.Ok? ==> State() == s.value)
    {
      match op
      case CallDeposit(provider, amount) =>
        var _ :- Need(Signs(credit.setup, provider), NotAuthorized);
        var _ :- pool.Deposit(provider, amount);
        r := Ok(());
      case CallWithdraw(provider, shares) =>
        var _ :- Need(Signs(credit.setup, provider), NotAuthorized);
        var _ :- pool.Withdraw(provider, shares);
        r := Ok(());
      case CallSetOutflowCap(bps) =>
        r := pool.SetOutflowCap(bps);
      case CallSetExposureCap(cap) =>
        r := pool.SetExposureCap(cap);
    }

    /** A borrower's or the administrator's call before any repayment. */
    method InvokeLending(op: Op) returns (r: Result<()>)
      requires Wired() && (op.CallCreateLoan? || op.CallRequestLoan? || op.CallApproveLoan? || op.CallCancelLoan?)
      modifies credit, index, pool, token
      ensures
        var s := Step(old(State()), op);
        && r == (if s.Ok? then Ok(()) else Err(s.error))
        && (s.Ok? ==> State() == s.value)
    {
      match op
      case CallCreateLoan(user, vendor, total, guarantee, schedule, loanType, ctx) =>
        var _ :- credit.CreateLoan(now, ledger, user, vendor, total, guarantee, schedule, loanType, ctx);
        r := Ok(());
      case CallRequestLoan(user, vendor, total, guarantee, schedule, loanType, ctx) =>
        var _ :- credit.RequestLoan(now, ledger, user, vendor, total, guarantee, schedule, loanType, ctx);
        r := Ok(());
      case CallApproveLoan(caller, id, ctx) =>
        r := credit.ApproveLoan(now, ledger, caller, id, ctx);
      case CallCancelLoan(caller, id) =>
        r := credit.CancelLoan(now, ledger, caller, id);
    }

    /** A call on an Active loan. */
    method InvokeServicing(op: Op) returns (r: Result<()>)
      requires Wired() && credit.RecordsOk()
      requires op.CallRepayLoan? || op.CallRepayInstallment? || op.CallApplyLateFees? || op.CallMarkDefaulted?
      modifies credit, index, pool, token, reputation
      ensures
        var s := Step(old(State()), op);
        && r == (if s.Ok? then Ok(()) else Err(s.error))
        && (s.Ok? ==> State() == s.value)
    {
      match op
      case CallRepayLoan(borrower, id, amount) =>
        var _ :- credit.RepayLoan(now, ledger, borrower, id, amount);
        r := Ok(());
      case CallRepayInstallment(borrower, id, i, amount) =>
        var _ :- credit.RepayInstallment(now, ledger, borrower, id, i, amount);
        r := Ok(());
      case CallApplyLateFees(id) =>
        r := credit.ApplyLateFees(now, ledger, id);
      case CallMarkDefaulted(id, params) =>
        r := credit.MarkDefaulted(now, ledger, id, params);
    }

    /** What the rest of the chain does between calls. */
    method InvokeOutside(op: Op) returns (r: Result<()>)
      requires Wired() && (op.Advance? || op.OutsideTransfer? || op.OutsideScore?)
      modifies `now, `ledger, token, reputation
      ensures
        var s := Step(old(State()), op);
        && r == (if s.Ok? then Ok(()) else Err(s.error))
        && (s.Ok? ==> State() == s.value)
    {
      match op
      case Advance(time, sequence) =>
        var _ :- Need(now <= time <= U64_MAX && ledger <= sequence, ClockReversed);
        now, ledger := time, sequence;
        r := Ok(());
      case OutsideTransfer(from, to, amount) =>
        var _ :- Need(Signs(credit.setup, from), NotAuthorized);
        r := token.Send(from, to, amount);
      case OutsideScore(user, score) =>
        var _ :- Need(score <= MAX_SCORE, OutOfBounds);
        reputation.scores := reputation.scores[user := score];
        r := Ok(());
    }

    /** One invocation: an accepted call takes the step, a rejected one leaves no trace. */
    method Invoke(op: Op) returns (r: Result<()>)
      requires Valid()
      modifies this, credit, index, pool, token, reputation
      ensures Valid() && State() == Apply(old(State()), op)
      ensures r.Ok? <==> Step(old(State()), op).Ok?
    {
      var before := State();
      ReachableRecords(before);
      ReachableStep(before, op);
      if op.CallDeposit? || op.CallWithdraw? || op.CallSetOutflowCap? || op.CallSetExposureCap? {
        r := InvokePool(op);
      } else if op.CallCreateLoan? || op.CallRequestLoan? || op.CallApproveLoan? || op.CallCancelLoan? {
        r := InvokeLending(op);
      } else if op.CallRepayLoan? || op.CallRepayInstallment? || op.CallApplyLateFees? || op.CallMarkDefaulted? {
        r := InvokeServicing(op);
      } else {
        r := InvokeOutside(op);
      }
      if r.Err? {
        Rollback(before);
      }
    }
  }
}
