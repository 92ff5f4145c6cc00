/** The credit line contract: the object whose entry points create, settle and default loans. */
module CreditLine {
  import opened Common
  import opened Token
  import opened LoanModel
  import opened LoanIndex
  import opened Reputation
  import opened ProtocolModel
  import P = PoolModel
  import LP = LoanProofs
  import LiquidityPool

  // ---------------------------------------------------------------- work on one loan

  /** Accrues late fees onto a loan, from the later of the earliest overdue date and the cursor. */
  method AccrueLateFees(l: Loan, now: nat) returns (r: Result<Accrual>)
    ensures r == Accrue(l, now)
  {
    var overdueSince: Option<nat> := None;
    for i := 0 to |l.schedule|
      invariant overdueSince == OverdueSince(l.schedule[..i], now)
    {
      assert l.schedule[..i + 1][..i] == l.schedule[..i];
      var due := l.schedule[i].dueDate;
      if due < now {
        match overdueSince {
          case None => overdueSince := Some(due);
          case Some(d) =>
            if due < d {
              overdueSince := Some(due);
            }
        }
      }
    }
    assert l.schedule[..|l.schedule|] == l.schedule;
    if overdueSince.None? {
      return Ok(Accrual(l, 0, 0));
    }
    var start := overdueSince.value;
    if l.cursor != 0 && l.cursor > start {
      start := l.cursor;
    }
    if now <= start {
      return Ok(Accrual(l, 0, 0));
    }
    var days := (now - start) / SECONDS_PER_DAY;
    if days == 0 {
      return Ok(Accrual(l, 0, 0));
    }
    var perDay :- MulI128(l.remaining, LATE_FEE_BPS_PER_DAY);
    var scaled :- MulI128(perDay, days);
    var fee := TruncDiv(scaled, BPS_DENOMINATOR);
    if fee == 0 {
      return Ok(Accrual(l, 0, 0));
    }
    var accrued := l.(cursor := start + days * SECONDS_PER_DAY);
    var lateFees :- AddI128(l.lateFees, fee);
    accrued := accrued.(lateFees := lateFees);
    var remaining :- AddI128(l.remaining, fee);
    accrued := accrued.(remaining := remaining);
    r := Ok(Accrual(accrued, fee, days));
  }

  /** Runs a payment down the waterfall. On a loan in order, none of the checked subtractions fails. */
  method ApplyWaterfall(l: Loan, amount: int) returns (paid: Loan, a: Allocation)
    requires LoanOk(l) && 0 < amount <= l.remaining
    ensures a == Split(l, amount) && LP.InPriorityOrder(l, amount, a)
    ensures paid == Pay(l, amount).(status := l.status)
  {
    var lateFee := Min(amount, l.lateFees);
    var afterLate := amount - lateFee;
    var interest := Min(afterLate, l.interest);
    var afterInterest := afterLate - interest;
    var serviceFee := Min(afterInterest, l.serviceFee);
    var afterFee := afterInterest - serviceFee;
    var principal := Min(afterFee, l.principal);
    assert FitsI128(afterLate) && FitsI128(afterInterest) && FitsI128(afterFee);
    paid := l;
    paid := paid.(lateFees := paid.lateFees - lateFee);
    paid := paid.(interest := paid.interest - interest);
    paid := paid.(serviceFee := paid.serviceFee - serviceFee);
    paid := paid.(principal := paid.principal - principal);
    paid := paid.(remaining := paid.remaining - amount);
    assert FitsI128(paid.lateFees) && FitsI128(paid.interest) && FitsI128(paid.serviceFee);
    assert FitsI128(paid.principal) && FitsI128(paid.remaining);
    a := Allocation(lateFee, interest, serviceFee, principal);
    LP.WaterfallIsTheOnlyPriorityOrder(l, amount, a);
  }

  // ---------------------------------------------------------------- the contract

  class CreditLineContract {
    const setup: P.Setup
    const admin: Address
    const token: TokenContract
    const pool: LiquidityPool.PoolContract
    const index: IndexStore
    const reputation: ReputationContract

    var loans: map<nat, Loan>
    var counter: nat
    var debts: map<Address, int>

    /** The contracts are deployed against each other. */
    predicate Wired() {
      pool.token == token && pool.setup == setup
    }

    function Stored(): Book
      reads this, index
    {
      Book(loans, counter, debts, index.State())
    }

    /** The composed state, at time `now` in ledger `ledger`. */
    function State(now: nat, ledger: nat): World
      reads this, index, token, pool, reputation
    {
      World(setup, admin, now, ledger, P.Vault(pool.Stored(), token.balances), Stored(), reputation.scores)
    }

    /** What the entry points rely on about the stored records. */
    predicate RecordsOk()
      reads this
    {
      forall id :: id in loans ==> loans[id].id == id && LoanOk(loans[id])
    }

    constructor (setup: P.Setup, admin: Address, token: TokenContract, pool: LiquidityPool.PoolContract,
                 index: IndexStore, reputation: ReputationContract)
      ensures this.setup == setup && this.admin == admin && this.token == token && this.pool == pool
      ensures this.index == index && this.reputation == reputation
      ensures loans == map[] && counter == 0 && debts == map[]
    {
      this.setup, this.admin, this.token, this.pool := setup, admin, token, pool;
      this.index, this.reputation := index, reputation;
      loans, counter, debts := map[], 0, map[];
    }

    method Restore(b: Book)
      modifies this, index
      ensures Stored() == b
    {
      loans, counter, debts := b.loans, b.counter, b.debts;
      index.Restore(b.index);
    }

    /** Stores a loan and, when it is new, enters it in the borrower's index. */
    method Write(l: Loan) returns (r: Result<()>)
      modifies `loans, index
      ensures
        var s := WriteLoan(old(Stored()), l);
        && r == (if s.Ok? then Ok(()) else Err(s.error))
        && (s.Ok? ==> Stored() == s.value)
    {
      var isNew := l.id !in loans;
      loans := loans[l.id := l];
      if isNew {
        var _ :- index.Add(l.borrower, l.id);
      }
      r := Ok(());
    }

    method IncreaseDebt(a: Address, amount: int) returns (r: Result<()>)
      modifies `debts
      ensures
        var s := AddDebt(old(Stored()), a, amount);
        && r == (if s.Ok? then Ok(()) else Err(s.error))
        && (s.Ok? ==> Stored() == s.value)
    {
      var next :- AddI128(GetOr(debts, a, 0), amount);
      debts := debts[a := next];
      r := Ok(());
    }

    method DecreaseDebt(a: Address, amount: int) returns (r: Result<()>)
      modifies `debts
      ensures
        var s := SubDebt(old(Stored()), a, amount);
        && r == (if s.Ok? then Ok(()) else Err(s.error))
        && (s.Ok? ==> Stored() == s.value)
    {
      var next :- SubI128(GetOr(debts, a, 0), amount);
      debts := debts[a := next];
      r := Ok(());
    }

    /** Numbers and prices a new loan; only the loan counter changes. */
    method Build(now: nat, user: Address, vendor: Address, total: int, guarantee: int, schedule: seq<Installment>,
                 score: nat, status: Status, loanType: LoanType, ctx: Context) returns (r: Result<Loan>)
      modifies `counter
      ensures
        var s := BuildLoan(old(Stored()), now, user, vendor, total, guarantee, schedule, score, status, loanType, ctx);
        && r == s
        && (s.Ok? ==> counter == s.value.id)
    {
      var _ :- ValidateGuarantee(ctx.params, total, guarantee);
      var _ :- Need(ctx.vendorActive, VendorNotActive);
      var rate := InterestRate(ctx.params.baseInterestBps, score);
      var interest :- BpsAmount(total, rate);
      var serviceFee :- BpsAmount(total, SERVICE_FEE_BPS);
      var withInterest :- AddI128(total, interest);
      var remaining :- AddI128(withInterest, serviceFee);
      var nextDebt :- AddI128(GetOr(debts, user, 0), remaining);
      var _ :- Need(nextDebt <= CreditLimit(score), ExposureLimitExceeded);
      counter :- AddU64(counter, 1);
      r := Ok(Loan(counter, user, vendor, total, guarantee, rate, interest, serviceFee,
                   total, interest, serviceFee, remaining, schedule, status, loanType, now, 0, 0, 0));
    }

    /** Has the pool pay its part of a loan, if it has one. */
    method Fund(now: nat, ledger: nat, l: Loan, ctx: Context) returns (r: Result<()>)
      requires Wired()
      modifies token, pool
      ensures
        var s := FundFromPool(old(State(now, ledger)), l, ctx);
        && r == (if s.Ok? then Ok(()) else Err(s.error))
        && (s.Ok? ==> pool.State() == s.value)
    {
      var contribution := l.total - l.guarantee;
      if contribution > 0 {
        var _ :- pool.FundLoan(ledger, l.vendor, contribution, ctx.poolVendorOk);
      }
      r := Ok(());
    }

    /** Checks a purchase and numbers the loan it becomes. */
    method Underwrite(now: nat, ledger: nat, user: Address, vendor: Address, total: int, guarantee: int,
                      schedule: seq<Installment>, loanType: LoanType, ctx: Context) returns (r: Result<Loan>)
      modifies `counter
      ensures
        r == ProtocolModel.Underwrite(old(State(now, ledger)), user, vendor, total, guarantee, schedule, loanType, ctx)
      ensures r.Ok? ==> counter == r.value.id == old(counter) + 1
    {
      var _ :- Need(Signs(setup, user), NotAuthorized);
      var _ :- ValidateGuarantee(ctx.params, total, guarantee);
      var _ :- Need(ctx.vendorActive, VendorNotActive);
      var score := GetOr(reputation.scores, user, 0);
      var _ :- ValidateReputation(ctx.params, score);
      var _ :- ValidateLiquidity(pool.Stored(), total - guarantee);
      var l :- Build(now, user, vendor, total, guarantee, schedule, score, Active, loanType, ctx);
      r := Ok(l.(fundedAt := now));
    }

    method OpenLoan(now: nat, ledger: nat, l: Loan, ctx: Context) returns (r: Result<()>)
      requires Wired()
      modifies this, index, token, pool
      ensures
        var s := ProtocolModel.OpenLoan(old(State(now, ledger)), l, ctx);
        && r == (if s.Ok? then Ok(()) else Err(s.error))
        && (s.Ok? ==> State(now, ledger) == s.value)
    {
      var _ :- IncreaseDebt(l.borrower, l.remaining);
      var _ :- Write(l);
      var _ :- token.Send(l.borrower, setup.credit, l.guarantee);
      var _ :- Fund(now, ledger, l, ctx);
      r := Ok(());
    }

    method CreateLoan(now: nat, ledger: nat, user: Address, vendor: Address, total: int, guarantee: int,
                      schedule: seq<Installment>, loanType: LoanType, ctx: Context) returns (r: Result<nat>)
      requires Wired()
      modifies this, index, token, pool
      ensures
        var w := old(State(now, ledger));
        var s := ProtocolModel.CreateLoan(w, user, vendor, total, guarantee, schedule, loanType, ctx);
        && (r.Ok? <==> s.Ok?) && (s.Err? ==> r == Err(s.error))
        && (s.Ok? ==> State(now, ledger) == s.value && r.value == old(counter) + 1)
    {
      var l :- Underwrite(now, ledger, user, vendor, total, guarantee, schedule, loanType, ctx);
      var _ :- OpenLoan(now, ledger, l, ctx);
      r := Ok(l.id);
    }

    method RequestLoan(now: nat, ledger: nat, user: Address, vendor: Address, total: int, guarantee: int,
                       schedule: seq<Installment>, loanType: LoanType, ctx: Context) returns (r: Result<nat>)
      requires Wired()
      modifies this, index, token
      ensures
        var w := old(State(now, ledger));
        var s := ProtocolModel.RequestLoan(w, user, vendor, total, guarantee, schedule, loanType, ctx);
        && (r.Ok? <==> s.Ok?) && (s.Err? ==> r == Err(s.error))
        && (s.Ok? ==> State(now, ledger) == s.value && r.value == old(counter) + 1)
    {
      var _ :- Need(Signs(setup, user), NotAuthorized);
      var _ :- ValidateGuarantee(ctx.params, total, guarantee);
      var score := GetOr(reputation.scores, user, 0);
      var _ :- ValidateReputation(ctx.params, score);
      var l :- Build(now, user, vendor, total, guarantee, schedule, score, Pending, loanType, ctx);
      var _ :- token.Send(user, setup.credit, guarantee);
      var _ :- Write(l);
      r := Ok(l.id);
    }

    /** Re-validates a Pending loan at approval time. */
    method Approvable(now: nat, ledger: nat, caller: Address, id: nat, ctx: Context) returns (r: Result<Loan>)
      ensures r == ProtocolModel.Approvable(State(now, ledger), caller, id, ctx)
    {
      var _ :- Need(caller == admin, NotAuthorized);
      if id !in loans {
        return Err(LoanNotFound);
      }
      var l := loans[id];
      var _ :- Need(l.status.Pending?, InvalidLoanStatus);
      if l.schedule == [] {
        return Err(InvalidDueDate);
      }
      for i := 0 to |l.schedule|
        invariant forall j :: 0 <= j < i ==> l.schedule[j].dueDate > now
      {
        if l.schedule[i].dueDate == 0 || l.schedule[i].dueDate <= now {
          return Err(InvalidDueDate);
        }
      }
      var _ :- Need(ctx.vendorActive, VendorNotActive);
      var _ :- ValidateReputation(ctx.params, GetOr(reputation.scores, l.borrower, 0));
      var _ :- ValidateLiquidity(pool.Stored(), l.total - l.guarantee);
      r := Ok(l);
    }

    method ApproveLoan(now: nat, ledger: nat, caller: Address, id: nat, ctx: Context) returns (r: Result<()>)
      requires Wired()
      modifies this, index, token, pool
      ensures
        var s := ProtocolModel.ApproveLoan(old(State(now, ledger)), caller, id, ctx);
        && r == (if s.Ok? then Ok(()) else Err(s.error))
        && (s.Ok? ==> State(now, ledger) == s.value)
    {
      var l :- Approvable(now, ledger, caller, id, ctx);
      var _ :- IncreaseDebt(l.borrower, l.remaining);
      var _ :- Fund(now, ledger, l, ctx);
      l := l.(status := Active);
      l := l.(fundedAt := now);
      var _ :- Write(l);
      r := Ok(());
    }

    method CancelLoan(now: nat, ledger: nat, caller: Address, id: nat) returns (r: Result<()>)
      requires Wired()
      modifies this, index, token
      ensures
        var s := ProtocolModel.CancelLoan(old(State(now, ledger)), caller, id);
        && r == (if s.Ok? then Ok(()) else Err(s.error))
        && (s.Ok? ==> State(now, ledger) == s.value)
    {
      var _ :- Need(Signs(setup, caller), NotAuthorized);
      if id !in loans {
        return Err(LoanNotFound);
      }
      var l := loans[id];
      var _ :- Need(l.status.Pending?, LoanNotCancellable);
      var _ :- Need(caller == l.borrower || caller == admin, UnauthorizedRepayer);
      var _ :- Need(Bal(token.balances, setup.credit) >= l.guarantee, InsufficientRefundBalance);
      l := l.(status := Cancelled);
      var _ :- Write(l);
      var _ :- token.Send(setup.credit, l.borrower, l.guarantee);
      r := Ok(());
    }

    /** Pulls a payment, forwards it to the pool and refunds a settled guarantee. */
    method MovePayment(l: Loan, amount: int, paid: Loan, a: Allocation) returns (r: Result<()>)
      requires Wired() && a == Split(l, amount)
      modifies token, pool
      ensures
        var s := ProtocolModel.MovePayment(setup, old(pool.State()), l, amount, paid);
        && r == (if s.Ok? then Ok(()) else Err(s.error))
        && (s.Ok? ==> pool.State() == s.value)
    {
      var _ :- token.Send(l.borrower, setup.credit, amount);
      var interestAndFees := a.interest + a.serviceFee + a.lateFee;
      var _ :- pool.ReceiveRepayment(a.principal, interestAndFees);
      if paid.status.Paid? {
        var _ :- token.Send(setup.credit, l.borrower, l.guarantee);
      }
      r := Ok(());
    }

    /** Books a payment, moves its money and, when it settles the loan, raises the score. */
    method Settle(now: nat, ledger: nat, l: Loan, amount: int, paid: Loan, a: Allocation) returns (r: Result<int>)
      requires Wired() && a == Split(l, amount) && LastDue(paid) == LastDue(l)
      modifies this, index, token, pool, reputation
      ensures
        var s := ProtocolModel.Settle(old(State(now, ledger)), l, amount, paid);
        && r == (if s.Ok? then Ok(paid.remaining) else Err(s.error))
        && (s.Ok? ==> State(now, ledger) == s.value && paid.id in loans && loans[paid.id] == paid)
    {
      var _ :- DecreaseDebt(l.borrower, amount);
      var _ :- Write(paid);
      var _ :- MovePayment(l, amount, paid, a);
      if paid.status.Paid? {
        var reward := if now < LastDue(paid) then 15 else 10;
        var _ :- reputation.Increase(l.borrower, reward);
      }
      r := Ok(paid.remaining);
    }

    method Repayable(now: nat, ledger: nat, borrower: Address, id: nat) returns (r: Result<Loan>)
      ensures r == ProtocolModel.Repayable(State(now, ledger), borrower, id)
    {
      var _ :- Need(Signs(setup, borrower), NotAuthorized);
      if id !in loans {
        return Err(LoanNotFound);
      }
      var l := loans[id];
      var _ :- Need(l.borrower == borrower, UnauthorizedRepayer);
      var _ :- Need(l.status.Active?, LoanNotActive);
      r := Ok(l);
    }

    method AccrueDue(now: nat, l: Loan) returns (r: Result<Accrual>)
      modifies `debts
      ensures
        var s := ProtocolModel.AccrueDue(old(Stored()), now, l);
        && r == (if s.Ok? then Ok(s.value.0) else Err(s.error))
        && (s.Ok? ==> Stored() == s.value.1)
    {
      var accrual :- AccrueLateFees(l, now);
      if accrual.fee > 0 {
        var _ :- IncreaseDebt(l.borrower, accrual.fee);
      }
      r := Ok(accrual);
    }

    /** Applies a checked amount to a loan whose fees have been accrued. */
    method PayDown(l: Loan, amount: int) returns (paid: Loan, a: Allocation)
      requires LoanOk(l) && 0 < amount <= l.remaining
      ensures paid == Pay(l, amount) && a == Split(l, amount)
    {
      paid, a := ApplyWaterfall(l, amount);
      if paid.remaining == 0 {
        paid := paid.(status := Paid);
      }
    }

    method RepayLoan(now: nat, ledger: nat, borrower: Address, id: nat, amount: int) returns (r: Result<int>)
      requires Wired() && RecordsOk()
      modifies this, index, token, pool, reputation
      ensures
        var s := ProtocolModel.RepayLoan(old(State(now, ledger)), borrower, id, amount);
        && (r.Ok? <==> s.Ok?) && (s.Err? ==> r == Err(s.error))
        && (s.Ok? ==> State(now, ledger) == s.value && id in loans && r.value == loans[id].remaining)
    {
      hide Accrue, ProtocolModel.Settle;
      var l :- Repayable(now, ledger, borrower, id);
      var accrual :- AccrueDue(now, l);
      LP.AccrueKeepsLoan(l, now);
      var _ :- Need(0 < amount <= accrual.loan.remaining, InvalidRepaymentAmount);
      var paid, allocation := PayDown(accrual.loan, amount);
      r := Settle(now, ledger, accrual.loan, amount, paid, allocation);
    }

    method RepayInstallment(now: nat, ledger: nat, borrower: Address, id: nat, i: nat, amount: int)
      returns (r: Result<int>)
      requires Wired() && RecordsOk()
      modifies this, index, token, pool, reputation
      ensures
        var s := ProtocolModel.RepayInstallment(old(State(now, ledger)), borrower, id, i, amount);
        && (r.Ok? <==> s.Ok?) && (s.Err? ==> r == Err(s.error))
        && (s.Ok? ==> State(now, ledger) == s.value && id in loans && r.value == loans[id].remaining)
    {
      hide Accrue, ProtocolModel.Settle;
      var l :- Repayable(now, ledger, borrower, id);
      if i >= |l.schedule| {
        return Err(InvalidInstallmentIndex);
      }
      var installment := l.schedule[i];
      var _ :- Need(!installment.paid, InstallmentAlreadyPaid);
      var accrual :- AccrueDue(now, l);
      LP.AccrueKeepsLoan(l, now);
      var _ :- Need(0 < amount <= accrual.loan.remaining, InvalidRepaymentAmount);
      var paid, allocation := PayDown(accrual.loan, amount);
      installment := installment.(paid := true, paidAt := now);
      paid := paid.(schedule := paid.schedule[i := installment]);
      r := Settle(now, ledger, accrual.loan, amount, paid, allocation);
    }

    method ApplyLateFees(now: nat, ledger: nat, id: nat) returns (r: Result<()>)
      modifies this, index
      ensures
        var s := ProtocolModel.ApplyLateFees(old(State(now, ledger)), id);
        && r == (if s.Ok? then Ok(()) else Err(s.error))
        && (s.Ok? ==> State(now, ledger) == s.value)
    {
      if id !in loans {
        return Err(LoanNotFound);
      }
      var l := loans[id];
      var _ :- Need(l.status.Active?, LoanNotActive);
      var accrual :- AccrueLateFees(l, now);
      if accrual.fee == 0 {
        return Ok(());
      }
      var _ :- IncreaseDebt(l.borrower, accrual.fee);
      var _ :- Write(accrual.loan);
      r := Ok(());
    }

    method MarkDefaulted(now: nat, ledger: nat, id: nat, params: Params) returns (r: Result<()>)
      requires Wired()
      modifies this, index, token, pool, reputation
      ensures
        var s := ProtocolModel.MarkDefaulted(old(State(now, ledger)), id, params);
        && r == (if s.Ok? then Ok(()) else Err(s.error))
        && (s.Ok? ==> State(now, ledger) == s.value)
    {
      if id !in loans {
        return Err(LoanNotFound);
      }
      var l := loans[id];
      var _ :- Need(l.status.Active?, LoanNotActive);
      if l.schedule == [] {
        return Err(Overflow);
      }
      var lastDue := l.schedule[|l.schedule| - 1].dueDate;
      var _ :- Need(now > lastDue, LoanNotOverdue);
      var graceEnds :- AddU64(lastDue, params.gracePeriod);
      var _ :- Need(now > graceEnds, LoanInGracePeriod);
      var defaulted := l.(status := Defaulted);
      var _ :- DecreaseDebt(l.borrower, l.remaining);
      var _ :- Write(defaulted);
      var _ :- pool.ReceiveGuarantee(l.guarantee);
      var shortfall := l.principal - l.guarantee;
      if shortfall > 0 {
        var absorbed := pool.AbsorbLoss(shortfall);
        assert absorbed.Ok?;
      }
      var penalty :=
        if l.total > params.largeLoanThreshold then params.largeLoanDefaultPenalty else params.defaultPenalty;
      var _ :- reputation.Decrease(l.borrower, penalty);
      r := Ok(());
    }

    /** The loans of a borrower, a page-wise slice of its index resolved to records. */
    method UserLoans(borrower: Address, start: nat, limit: nat, ghost ids: seq<nat>) returns (r: Result<seq<Loan>>)
      requires Represents(index.State(), borrower, ids) && |ids| <= CAPACITY && start <= U64_MAX
      requires forall i :: 0 <= i < |ids| ==> ids[i] in loans
      ensures r.Ok? && |r.value| == |Slice(ids, start, limit)|
      ensures forall i :: 0 <= i < |r.value| ==> r.value[i] == loans[Slice(ids, start, limit)[i]]
    {
      var found := index.Read(borrower, start, limit, ids);
      assert found == Ok(Slice(ids, start, limit));
      var result: seq<Loan> := [];
      for i := 0 to |found.value|
        invariant |result| == i
        invariant forall j :: 0 <= j < i ==> result[j] == loans[found.value[j]]
      {
        result := result + [loans[found.value[i]]];
      }
      r := Ok(result);
    }
  }
}
