/** The invariant of the composed protocol, kept by every accepted step. */
module ProtocolProofs {
  import opened Common
  import opened Arithmetic
  import opened Token
  import opened LoanModel
  import opened LoanIndex
  import opened ProtocolModel
  import opened Reputation
  import opened BookProofs
  import P = PoolModel
  import PP = PoolProofs
  import LP = LoanProofs

  function CreditBalance(w: World): int {
    Bal(w.vault.bal, w.setup.credit)
  }

  function PoolBalance(w: World): int {
    Bal(w.vault.bal, w.setup.pool)
  }

  /** What the credit line holds beyond the guarantees in escrow. */
  function Surplus(w: World): int {
    CreditBalance(w) - Total(Escrowed, w.book)
  }

  /** What the pool holds beyond the liquidity it counts as available. */
  function Slack(w: World): int {
    PoolBalance(w) - P.Available(w.vault.pool)
  }

  ghost predicate WorldOk(w: World) {
    && w.setup.pool != w.setup.credit && Signs(w.setup, w.admin)
    && PP.PoolOk(w.vault.pool) && BookOk(w.book)
    && (forall id :: id in w.book.loans ==> Signs(w.setup, w.book.loans[id].borrower))
    && w.vault.pool.lockedLiquidity <= Total(Exposure, w.book)
    && 0 <= Surplus(w)
    && 0 <= Slack(w) + Total(Forfeited, w.book)
    && (forall a :: a in w.scores ==> w.scores[a] <= MAX_SCORE)
    && w.now <= U64_MAX
  }

  /** What every accepted step does besides keeping the invariant: addresses stay, the credit
      line's surplus does not shrink, and neither does the pool's slack, except that a default
      may cost it the guarantee just forfeited. */
  ghost predicate Follows(w: World, w': World) {
    && WorldOk(w')
    && w'.setup == w.setup && w'.admin == w.admin && w.now <= w'.now && w.ledger <= w'.ledger
    && Surplus(w) <= Surplus(w')
    && Slack(w) + Total(Forfeited, w.book) <= Slack(w') + Total(Forfeited, w'.book)
  }

  lemma EmptyIndexOk()
    ensures IndexOk(EMPTY_BOOK)
  {
    forall a
      ensures Indexed(EMPTY_BOOK, a)
    {
      assert Represents(EMPTY_INDEX, a, []);
    }
  }

  lemma InitialOk(w: World)
    requires Initial(w)
    ensures WorldOk(w) && Slack(w) >= 0 && IndexOk(w.book)
  {
    SumNonNegative(map[]);
    EmptyIndexOk();
  }

  // ---------------------------------------------------------------- liquidity providers

  lemma DepositFollows(w: World, provider: Address, amount: int)
    requires WorldOk(w) && Step(w, CallDeposit(provider, amount)).Ok?
    ensures Follows(w, Step(w, CallDeposit(provider, amount)).value)
  {
    PP.DepositEffect(w.setup, w.vault, provider, amount);
    TransferMoves(w.vault.bal, provider, w.setup.pool, amount);
  }

  lemma WithdrawFollows(w: World, provider: Address, shares: int)
    requires WorldOk(w) && Step(w, CallWithdraw(provider, shares)).Ok?
    ensures Follows(w, Step(w, CallWithdraw(provider, shares)).value)
  {
    PP.WithdrawEffect(w.setup, w.vault, provider, shares);
    TransferMoves(w.vault.bal, w.setup.pool, provider, P.Withdraw(w.setup, w.vault, provider, shares).value.1);
  }

  // ---------------------------------------------------------------- funding

  lemma BuildEffect(w: World, user: Address, vendor: Address, total: int, guarantee: int,
                    schedule: seq<Installment>, score: nat, status: Status, loanType: LoanType, ctx: Context)
    requires w.book.counter + 1 !in w.book.loans && (status.Active? || status.Pending?)
    requires BuildLoan(w.book, w.now, user, vendor, total, guarantee, schedule, score, status, loanType, ctx).Ok?
    ensures
      var l := BuildLoan(w.book, w.now, user, vendor, total, guarantee, schedule, score, status, loanType, ctx).value;
      && LoanOk(l) && l.id == w.book.counter + 1 && l.id !in w.book.loans
      && l.borrower == user && l.vendor == vendor && l.total == total == l.principal && l.guarantee == guarantee
      && l.status == status && l.schedule == schedule && l.cursor == 0
      && Debt(w.book, user) + l.remaining <= CreditLimit(score)
  {
  }

  /** The pool pays out what the guarantee does not cover. */
  lemma FundFollows(w: World, l: Loan, ctx: Context)
    requires w.setup.pool != w.setup.credit && PP.PoolOk(w.vault.pool)
    requires LoanOk(l) && l.principal == l.total && FundFromPool(w, l, ctx).Ok?
    ensures
      var v := FundFromPool(w, l, ctx).value;
      && PP.PoolOk(v.pool)
      && v.pool.lockedLiquidity == w.vault.pool.lockedLiquidity + Shortfall(l)
      && v.pool.totalLiquidity == w.vault.pool.totalLiquidity
      && v.pool.totalShares == w.vault.pool.totalShares
      && Bal(v.bal, w.setup.pool)
         == Bal(w.vault.bal, w.setup.pool) - (if l.vendor == w.setup.pool then 0 else Shortfall(l))
      && Bal(v.bal, w.setup.credit)
         == Bal(w.vault.bal, w.setup.credit) + (if l.vendor == w.setup.credit then Shortfall(l) else 0)
  {
    var amount := l.total - l.guarantee;
    if amount > 0 {
      PP.FundEffect(w.setup, w.vault, w.ledger, l.vendor, amount, ctx.poolVendorOk);
      TransferMoves(w.vault.bal, w.setup.pool, l.vendor, amount);
    }
  }

  /** The pieces of an accepted creation: the record stored and the balances after the guarantee
      was pulled, before the pool paid. */
  lemma CreateParts(w: World, user: Address, vendor: Address, total: int, guarantee: int,
                    schedule: seq<Installment>, loanType: LoanType, ctx: Context)
    returns (l: Loan, bal: Balances)
    requires w.book.counter + 1 !in w.book.loans
    requires CreateLoan(w, user, vendor, total, guarantee, schedule, loanType, ctx).Ok?
    ensures
      var w' := CreateLoan(w, user, vendor, total, guarantee, schedule, loanType, ctx).value;
      && Signs(w.setup, user)
      && LoanOk(l) && l.status.Active? && l.borrower == user && l.vendor == vendor && l.cursor == 0
      && l.principal == l.total == total && l.guarantee == guarantee && l.id == w.book.counter + 1
      && Debt(w.book, user) + l.remaining <= CreditLimit(Score(w.scores, user))
      && Transfer(w.vault.bal, user, w.setup.credit, guarantee) == Ok(bal)
      && FundFromPool(w.(vault := w.vault.(bal := bal)), l, ctx) == Ok(w'.vault)
      && w' == w.(book := w'.book, vault := w'.vault)
      && w'.book.loans == w.book.loans[l.id := l] && w'.book.counter == l.id
      && Append(w.book.index, user, l.id) == Ok(w'.book.index)
      && DebtMoved(w.book, w'.book, None, l)
  {
    var score := Score(w.scores, user);
    BuildEffect(w, user, vendor, total, guarantee, schedule, score, Active, loanType, ctx);
    l := BuildLoan(w.book, w.now, user, vendor, total, guarantee, schedule, score, Active, loanType, ctx).value;
    l := l.(fundedAt := w.now);
    bal := Transfer(w.vault.bal, user, w.setup.credit, guarantee).value;
  }

  lemma OpeningFollows(w: World, l: Loan, bal: Balances, ctx: Context, w': World)
    requires WorldOk(w) && Signs(w.setup, l.borrower)
    requires LoanOk(l) && l.status.Active? && l.principal == l.total && l.id == w.book.counter + 1
    requires Transfer(w.vault.bal, l.borrower, w.setup.credit, l.guarantee) == Ok(bal)
    requires FundFromPool(w.(vault := w.vault.(bal := bal)), l, ctx) == Ok(w'.vault)
    requires w' == w.(book := w'.book, vault := w'.vault)
    requires w'.book.loans == w.book.loans[l.id := l] && w'.book.counter == l.id
    requires DebtMoved(w.book, w'.book, None, l)
    ensures Follows(w, w') && Slack(w) <= Slack(w')
    ensures w'.vault.pool.totalShares == w.vault.pool.totalShares
    ensures w'.vault.pool.totalLiquidity == w.vault.pool.totalLiquidity
    ensures l.vendor != w.setup.credit ==> Surplus(w') == Surplus(w)
    ensures Total(DebtOf(l.borrower), w'.book) == Debt(w.book, l.borrower) + l.remaining
  {
    hide FundFromPool, LoanOk;
    StoreNew(w.book, w'.book, l);
    TransferMoves(w.vault.bal, l.borrower, w.setup.credit, l.guarantee);
    FundFollows(w.(vault := w.vault.(bal := bal)), l, ctx);
  }

  lemma CreateFollows(w: World, user: Address, vendor: Address, total: int, guarantee: int,
                      schedule: seq<Installment>, loanType: LoanType, ctx: Context)
    requires WorldOk(w) && CreateLoan(w, user, vendor, total, guarantee, schedule, loanType, ctx).Ok?
    ensures
      var w' := CreateLoan(w, user, vendor, total, guarantee, schedule, loanType, ctx).value;
      && Follows(w, w')
      && w'.vault.pool.totalShares == w.vault.pool.totalShares
      && w'.vault.pool.totalLiquidity == w.vault.pool.totalLiquidity
      && Slack(w) <= Slack(w')
      && (vendor != w.setup.credit ==> Surplus(w') == Surplus(w))
      && Total(DebtOf(user), w'.book) <= CreditLimit(Score(w.scores, user))
  {
    var l, bal := CreateParts(w, user, vendor, total, guarantee, schedule, loanType, ctx);
    OpeningFollows(w, l, bal, ctx, CreateLoan(w, user, vendor, total, guarantee, schedule, loanType, ctx).value);
  }

  lemma RequestParts(w: World, user: Address, vendor: Address, total: int, guarantee: int,
                     schedule: seq<Installment>, loanType: LoanType, ctx: Context) returns (l: Loan)
    requires w.book.counter + 1 !in w.book.loans
    requires RequestLoan(w, user, vendor, total, guarantee, schedule, loanType, ctx).Ok?
    ensures
      var w' := RequestLoan(w, user, vendor, total, guarantee, schedule, loanType, ctx).value;
      && Signs(w.setup, user)
      && LoanOk(l) && l.status.Pending? && l.borrower == user && l.vendor == vendor
      && l.guarantee == guarantee && l.id == w.book.counter + 1
      && Transfer(w.vault.bal, user, w.setup.credit, guarantee) == Ok(w'.vault.bal)
      && w' == w.(book := w'.book, vault := w.vault.(bal := w'.vault.bal))
      && w'.book.loans == w.book.loans[l.id := l] && w'.book.counter == l.id
      && Append(w.book.index, user, l.id) == Ok(w'.book.index)
      && w'.book.debts == w.book.debts
  {
    var score := Score(w.scores, user);
    BuildEffect(w, user, vendor, total, guarantee, schedule, score, Pending, loanType, ctx);
    l := BuildLoan(w.book, w.now, user, vendor, total, guarantee, schedule, score, Pending, loanType, ctx).value;
  }

  lemma RequestFollows(w: World, user: Address, vendor: Address, total: int, guarantee: int,
                       schedule: seq<Installment>, loanType: LoanType, ctx: Context)
    requires WorldOk(w) && RequestLoan(w, user, vendor, total, guarantee, schedule, loanType, ctx).Ok?
    ensures
      var w' := RequestLoan(w, user, vendor, total, guarantee, schedule, loanType, ctx).value;
      && Follows(w, w')
      && w'.vault.pool == w.vault.pool && Slack(w) <= Slack(w') && Surplus(w') == Surplus(w)
  {
    var w' := RequestLoan(w, user, vendor, total, guarantee, schedule, loanType, ctx).value;
    var l := RequestParts(w, user, vendor, total, guarantee, schedule, loanType, ctx);
    StoreNew(w.book, w'.book, l);
    TransferMoves(w.vault.bal, user, w.setup.credit, guarantee);
  }

  lemma ApproveFollows(w: World, caller: Address, id: nat, ctx: Context)
    requires WorldOk(w) && ApproveLoan(w, caller, id, ctx).Ok?
    ensures
      var w' := ApproveLoan(w, caller, id, ctx).value;
      && Follows(w, w')
      && w'.vault.pool.totalShares == w.vault.pool.totalShares
      && w'.vault.pool.totalLiquidity == w.vault.pool.totalLiquidity
      && Slack(w) <= Slack(w')
      && (w.book.loans[id].vendor != w.setup.credit ==> Surplus(w') == Surplus(w))
  {
    var w' := ApproveLoan(w, caller, id, ctx).value;
    var l := w.book.loans[id];
    StoreChanged(w.book, w'.book, w'.book.loans[id]);
    FundFollows(w, l, ctx);
  }

  lemma CancelFollows(w: World, caller: Address, id: nat)
    requires WorldOk(w) && CancelLoan(w, caller, id).Ok?
    ensures
      var w' := CancelLoan(w, caller, id).value;
      Follows(w, w') && w'.vault.pool == w.vault.pool && Slack(w) == Slack(w') && Surplus(w') == Surplus(w)
  {
    var w' := CancelLoan(w, caller, id).value;
    var l := w.book.loans[id];
    StoreChanged(w.book, w'.book, w'.book.loans[id]);
    TransferMoves(w.vault.bal, w.setup.credit, l.borrower, l.guarantee);
  }

  // ---------------------------------------------------------------- repayment

  /** No fee of the interest split goes to the credit line itself. */
  predicate FeesElsewhere(c: P.Setup) {
    c.treasury != Some(c.credit) && c.merchantFund != Some(c.credit)
  }

  lemma AnySchedule(l: Loan, schedule: seq<Installment>)
    requires LoanOk(l)
    ensures LoanOk(l.(schedule := schedule))
  {
  }

  /** The record of an accepted payment, from the loan before its fees accrued. */
  lemma PaymentRecord(b: Book, now: nat, l: Loan, a: Accrual, booked: Book, amount: int, paid: Loan, b': Book)
    requires BookOk(b) && l.id in b.loans && l == b.loans[l.id] && l.status.Active?
    requires Accrue(l, now) == Ok(a) && BookFee(b, l.borrower, a.fee) == Ok(booked)
    requires 0 < amount <= a.loan.remaining
    requires paid == Pay(a.loan, amount).(schedule := paid.schedule)
    requires WriteOff(booked, a.loan, amount, paid) == Ok(b')
    ensures LoanOk(a.loan) && LoanOk(paid) && 0 <= a.fee && a.loan.status.Active? && a.loan.borrower == l.borrower
    ensures b'.loans == b.loans[l.id := paid] && b'.counter == b.counter
    ensures BookOk(b')
    ensures forall m {:trigger Total(m, b')} :: Total(m, b') == Total(m, b) - Value(m, l) + Value(m, paid)
  {
    hide Accrue, Split, LoanOk;
    LP.AccrueKeepsLoan(l, now);
    LP.PayKeepsLoan(a.loan, amount);
    AnySchedule(Pay(a.loan, amount), paid.schedule);
    assert b'.debts == b.debts[l.borrower := Debt(b, l.borrower) + a.fee - amount];
    StoreChanged(b, b', paid);
  }

  /** Pulling a payment from the borrower and forwarding all of it to the pool. */
  lemma ForwardEffect(c: P.Setup, v: P.Vault, from: Address, principal: int, interest: int)
    requires Signs(c, from) && c.pool != c.credit && PP.PoolOk(v.pool)
    requires Forward(c, v, from, principal + interest, principal, interest).Ok?
    ensures
      var v' := Forward(c, v, from, principal + interest, principal, interest).value;
      && PP.PoolOk(v'.pool)
      && v'.pool == v.pool.(lockedLiquidity := Max(0, v.pool.lockedLiquidity - principal),
                            totalLiquidity := v.pool.totalLiquidity + P.LpCut(interest))
      && Bal(v'.bal, c.credit) == Bal(v.bal, c.credit) + PP.FeesTo(c, interest, c.credit)
      && Bal(v'.bal, c.pool) == Bal(v.bal, c.pool) + principal + interest
                                + PP.FeesTo(c, interest, c.pool) - PP.FeesOut(c, interest)
      && Bal(v'.bal, from) == Bal(v.bal, from) - principal - interest + PP.FeesTo(c, interest, from)
  {
    hide P.ReceiveRepayment, PP.FeesTo, PP.FeesOut, P.LpCut, PP.PoolOk;
    TransferMoves(v.bal, from, c.credit, principal + interest);
    PP.RepaymentEffect(c, v.(bal := Transfer(v.bal, from, c.credit, principal + interest).value), principal, interest);
  }

  lemma PaymentMoney(c: P.Setup, v: P.Vault, l: Loan, amount: int, paid: Loan, v': P.Vault)
    requires c.pool != c.credit && PP.PoolOk(v.pool)
    requires LoanOk(l) && Signs(c, l.borrower) && 0 < amount <= l.remaining
    requires MovePayment(c, v, l, amount, paid) == Ok(v')
    ensures
      var a := Split(l, amount);
      var back := if paid.status.Paid? then l.guarantee else 0;
      && 0 <= FeePart(a) == amount - a.principal
      && PP.PoolOk(v'.pool)
      && v'.pool == v.pool.(lockedLiquidity := Max(0, v.pool.lockedLiquidity - a.principal),
                            totalLiquidity := v.pool.totalLiquidity + P.LpCut(FeePart(a)))
      && Bal(v'.bal, c.credit) == Bal(v.bal, c.credit) - back + PP.FeesTo(c, FeePart(a), c.credit)
      && Bal(v'.bal, c.pool) == Bal(v.bal, c.pool) + amount
                                + PP.FeesTo(c, FeePart(a), c.pool) - PP.FeesOut(c, FeePart(a))
      && Bal(v'.bal, l.borrower) == Bal(v.bal, l.borrower) - amount + back + PP.FeesTo(c, FeePart(a), l.borrower)
  {
    hide Forward, PP.FeesTo, PP.FeesOut, P.LpCut, PP.PoolOk;
    var a := Split(l, amount);
    LP.WaterfallIsTheOnlyPriorityOrder(l, amount, a);
    MoneyOf(c, v, l, a, amount, paid.status.Paid?);
  }

  /** The same for any allocation of the amount. */
  lemma MoneyOf(c: P.Setup, v: P.Vault, l: Loan, a: Allocation, amount: int, settled: bool)
    requires c.pool != c.credit && PP.PoolOk(v.pool) && Signs(c, l.borrower) && FeePart(a) + a.principal == amount
    requires Forward(c, v, l.borrower, amount, a.principal, FeePart(a)).Ok?
    ensures
      var v1 := Forward(c, v, l.borrower, amount, a.principal, FeePart(a)).value;
      var back := if settled then l.guarantee else 0;
      && PP.PoolOk(v1.pool)
      && v1.pool == v.pool.(lockedLiquidity := Max(0, v.pool.lockedLiquidity - a.principal),
                            totalLiquidity := v.pool.totalLiquidity + P.LpCut(FeePart(a)))
      && (!settled || Transfer(v1.bal, c.credit, l.borrower, l.guarantee).Ok? ==>
            var bal := if settled then Transfer(v1.bal, c.credit, l.borrower, l.guarantee).value else v1.bal;
            && Bal(bal, c.credit) == Bal(v.bal, c.credit) - back + PP.FeesTo(c, FeePart(a), c.credit)
            && Bal(bal, c.pool) == Bal(v.bal, c.pool) + amount
                                   + PP.FeesTo(c, FeePart(a), c.pool) - PP.FeesOut(c, FeePart(a))
            && Bal(bal, l.borrower) == Bal(v.bal, l.borrower) - amount + back + PP.FeesTo(c, FeePart(a), l.borrower))
  {
    hide Forward, PP.FeesTo, PP.FeesOut, P.LpCut, PP.PoolOk;
    ForwardEffect(c, v, l.borrower, a.principal, FeePart(a));
    var v1 := Forward(c, v, l.borrower, amount, a.principal, FeePart(a)).value;
    if settled && Transfer(v1.bal, c.credit, l.borrower, l.guarantee).Ok? {
      TransferMoves(v1.bal, c.credit, l.borrower, l.guarantee);
    }
  }

  /** A payment of p principal cannot take more off the exposure than off the locked liquidity. */
  lemma ExposureAfterPayment(l: Loan, now: nat, a: Accrual, amount: int, paid: Loan)
    requires LoanOk(l) && l.status.Active? && Accrue(l, now) == Ok(a) && 0 < amount <= a.loan.remaining
    requires paid == Pay(a.loan, amount).(schedule := paid.schedule)
    ensures Value(Exposure, l) - Value(Exposure, paid) <= Split(a.loan, amount).principal
    ensures Value(Escrowed, l) - Value(Escrowed, paid) == (if paid.status.Paid? then l.guarantee else 0)
    ensures Value(Forfeited, l) == Value(Forfeited, paid) == 0
  {
    LP.AccrueKeepsLoan(l, now);
    LP.PayKeepsLoan(a.loan, amount);
  }

  lemma SettleParts(w: World, book: Book, l: Loan, amount: int, paid: Loan, w': World)
    requires Settle(w.(book := book), l, amount, paid) == Ok(w')
    ensures WriteOff(book, l, amount, paid) == Ok(w'.book)
    ensures MovePayment(w.setup, w.vault, l, amount, paid) == Ok(w'.vault)
    ensures w' == w.(book := w'.book, vault := w'.vault, scores := w'.scores)
    ensures w'.scores == w.scores
            || (paid.status.Paid? && IncreaseScore(w.scores, l.borrower, Reward(w.now, l)) == Ok(w'.scores))
  {
  }

  /** What an accepted repayment does to the totals over the book. */
  lemma PaymentTotals(b: Book, now: nat, l: Loan, a: Accrual, booked: Book, amount: int, paid: Loan, b': Book)
    requires BookOk(b) && l.id in b.loans && l == b.loans[l.id] && l.status.Active?
    requires Accrue(l, now) == Ok(a) && BookFee(b, l.borrower, a.fee) == Ok(booked)
    requires 0 < amount <= a.loan.remaining
    requires paid == Pay(a.loan, amount).(schedule := paid.schedule)
    requires WriteOff(booked, a.loan, amount, paid) == Ok(b')
    ensures BookOk(b') && b'.loans == b.loans[l.id := paid] && paid.borrower == l.borrower
    ensures LoanOk(a.loan) && a.loan.status.Active?
    ensures a.loan.borrower == l.borrower && a.loan.guarantee == l.guarantee
    ensures Total(Exposure, b') >= Max(0, Total(Exposure, b) - Split(a.loan, amount).principal)
    ensures Total(Escrowed, b') == Total(Escrowed, b) - (if paid.status.Paid? then l.guarantee else 0)
    ensures Total(Forfeited, b') == Total(Forfeited, b)
  {
    PaymentRecord(b, now, l, a, booked, amount, paid, b');
    ExposureAfterPayment(l, now, a, amount, paid);
    SumBounds(Exposure, b'.loans, b'.counter);
  }

  /** What it does to the protocol's totals, whichever entry point it came through. */
  lemma RepaymentTotals(w: World, l: Loan, a: Accrual, book: Book, amount: int, paid: Loan, w': World)
    requires w.setup.pool != w.setup.credit && PP.PoolOk(w.vault.pool) && BookOk(w.book)
    requires l.id in w.book.loans && l == w.book.loans[l.id] && l.status.Active? && Signs(w.setup, l.borrower)
    requires w.vault.pool.lockedLiquidity <= Total(Exposure, w.book)
    requires Accrue(l, w.now) == Ok(a) && BookFee(w.book, l.borrower, a.fee) == Ok(book)
    requires 0 < amount <= a.loan.remaining
    requires paid == Pay(a.loan, amount).(schedule := paid.schedule)
    requires w'.setup == w.setup
    requires WriteOff(book, a.loan, amount, paid) == Ok(w'.book)
    requires MovePayment(w.setup, w.vault, a.loan, amount, paid) == Ok(w'.vault)
    ensures PP.PoolOk(w'.vault.pool) && BookOk(w'.book)
    ensures w'.book.loans == w.book.loans[l.id := paid] && paid.borrower == l.borrower
    ensures w'.vault.pool.lockedLiquidity <= Total(Exposure, w'.book)
    ensures Surplus(w) <= Surplus(w') && Slack(w) <= Slack(w')
    ensures Total(Forfeited, w'.book) == Total(Forfeited, w.book)
    ensures FeesElsewhere(w.setup) ==> Surplus(w') == Surplus(w)
    ensures w'.vault.pool == w.vault.pool.(lockedLiquidity := w'.vault.pool.lockedLiquidity,
                                           totalLiquidity := w'.vault.pool.totalLiquidity)
    ensures w'.vault.pool.totalLiquidity >= w.vault.pool.totalLiquidity
  {
    PaymentTotals(w.book, w.now, l, a, book, amount, paid, w'.book);
    PaymentMoney(w.setup, w.vault, a.loan, amount, paid, w'.vault);
    PP.CutsAddUp(w.setup, FeePart(Split(a.loan, amount)));
  }

  lemma RepaymentFollows(w: World, l: Loan, a: Accrual, book: Book, amount: int, paid: Loan, w': World)
    requires WorldOk(w) && l.id in w.book.loans && l == w.book.loans[l.id] && l.status.Active?
    requires Accrue(l, w.now) == Ok(a) && BookFee(w.book, l.borrower, a.fee) == Ok(book)
    requires 0 < amount <= a.loan.remaining
    requires paid == Pay(a.loan, amount).(schedule := paid.schedule)
    requires Settle(w.(book := book), a.loan, amount, paid) == Ok(w')
    ensures Follows(w, w') && Slack(w) <= Slack(w')
    ensures FeesElsewhere(w.setup) ==> Surplus(w') == Surplus(w)
    ensures w'.vault.pool.totalShares == w.vault.pool.totalShares
    ensures w'.vault.pool.totalLiquidity >= w.vault.pool.totalLiquidity
  {
    hide Settle, Accrue, WriteOff, MovePayment;
    SettleParts(w, book, a.loan, amount, paid, w');
    RepaymentTotals(w, l, a, book, amount, paid, w');
  }

  lemma RepayFollows(w: World, borrower: Address, id: nat, amount: int)
    requires WorldOk(w) && RepayLoan(w, borrower, id, amount).Ok?
    ensures
      var w' := RepayLoan(w, borrower, id, amount).value;
      && Follows(w, w') && Slack(w) <= Slack(w')
      && (FeesElsewhere(w.setup) ==> Surplus(w') == Surplus(w))
      && w'.vault.pool.totalShares == w.vault.pool.totalShares
      && w'.vault.pool.totalLiquidity >= w.vault.pool.totalLiquidity
  {
    var l := w.book.loans[id];
    var a := Accrue(l, w.now).value;
    RepaymentFollows(w, l, a, BookFee(w.book, borrower, a.fee).value, amount, Pay(a.loan, amount),
                     RepayLoan(w, borrower, id, amount).value);
  }

  lemma InstallmentFollows(w: World, borrower: Address, id: nat, i: nat, amount: int)
    requires WorldOk(w) && RepayInstallment(w, borrower, id, i, amount).Ok?
    ensures
      var w' := RepayInstallment(w, borrower, id, i, amount).value;
      && Follows(w, w') && Slack(w) <= Slack(w')
      && (FeesElsewhere(w.setup) ==> Surplus(w') == Surplus(w))
      && w'.vault.pool.totalShares == w.vault.pool.totalShares
      && w'.vault.pool.totalLiquidity >= w.vault.pool.totalLiquidity
  {
    var l := w.book.loans[id];
    var a := Accrue(l, w.now).value;
    var paid := Pay(a.loan, amount);
    RepaymentFollows(w, l, a, BookFee(w.book, borrower, a.fee).value, amount,
                     paid.(schedule := MarkPaid(paid.schedule, i, w.now)),
                     RepayInstallment(w, borrower, id, i, amount).value);
  }

  lemma LateFeesRecord(b: Book, now: nat, l: Loan, owed: Book, b': Book)
    requires BookOk(b) && l.id in b.loans && l == b.loans[l.id] && l.status.Active? && Accrue(l, now).Ok?
    requires AddDebt(b, l.borrower, Accrue(l, now).value.fee) == Ok(owed)
    requires WriteLoan(owed, Accrue(l, now).value.loan) == Ok(b')
    ensures
      var after := Accrue(l, now).value.loan;
      && BookOk(b') && b'.loans == b.loans[l.id := after] && after.borrower == l.borrower
      && (forall m {:trigger Total(m, b')} ::
            m == Escrowed || m == Forfeited || m == Exposure ==> Total(m, b') == Total(m, b))
  {
    LP.AccrueKeepsLoan(l, now);
    StoreChanged(b, b', Accrue(l, now).value.loan);
  }

  lemma LateFeesFollow(w: World, id: nat)
    requires WorldOk(w) && ApplyLateFees(w, id).Ok?
    ensures
      var w' := ApplyLateFees(w, id).value;
      && Follows(w, w') && w'.vault == w.vault && Surplus(w') == Surplus(w)
  {
    var l := w.book.loans[id];
    var fee := Accrue(l, w.now).value.fee;
    if fee != 0 {
      LateFeesRecord(w.book, w.now, l, AddDebt(w.book, l.borrower, fee).value, ApplyLateFees(w, id).value.book);
    }
  }

  // ---------------------------------------------------------------- default

  /** Exactly what a default does to the pool's books and balance. */
  lemma ForfeitEffect(c: P.Setup, v: P.Vault, l: Loan)
    requires c.pool != c.credit && PP.PoolOk(v.pool) && LoanOk(l) && Forfeit(c, v, l).Ok?
    ensures
      var v' := Forfeit(c, v, l).value;
      var recovered := Min(l.guarantee, v.pool.lockedLiquidity);
      && PP.PoolOk(v'.pool)
      && v'.pool == v.pool.(lockedLiquidity := v'.pool.lockedLiquidity, totalLiquidity := v'.pool.totalLiquidity)
      && v'.pool.lockedLiquidity
         == v.pool.lockedLiquidity - recovered - Min(Shortfall(l), v.pool.lockedLiquidity - recovered)
      && v'.pool.totalLiquidity
         == v.pool.totalLiquidity + recovered - Min(Shortfall(l), v.pool.totalLiquidity + recovered)
      && Bal(v'.bal, c.credit) == Bal(v.bal, c.credit) - l.guarantee
      && Bal(v'.bal, c.pool) == Bal(v.bal, c.pool) + l.guarantee
  {
    PP.GuaranteeEffect(c, v, l.guarantee);
    TransferMoves(v.bal, c.credit, c.pool, l.guarantee);
    if Shortfall(l) > 0 {
      PP.AbsorbLowersPrice(P.ReceiveGuarantee(c, v, l.guarantee).value, Shortfall(l));
    }
  }

  lemma LoanIsOk(w: World, id: nat)
    requires WorldOk(w) && id in w.book.loans
    ensures LoanOk(w.book.loans[id])
  {
  }

  lemma DefaultRecord(b: Book, l: Loan, b': Book)
    requires BookOk(b) && l.id in b.loans && l == b.loans[l.id] && l.status.Active?
    requires WriteOff(b, l, l.remaining, l.(status := Defaulted)) == Ok(b')
    ensures BookOk(b') && b'.loans == b.loans[l.id := l.(status := Defaulted)] && b'.counter == b.counter
    ensures
      forall m {:trigger Total(m, b')} ::
        Total(m, b') == Total(m, b) - Value(m, l) + Value(m, l.(status := Defaulted))
  {
    StoreChanged(b, b', l.(status := Defaulted));
  }

  lemma DefaultParts(w: World, id: nat, params: Params, w': World)
    requires MarkDefaulted(w, id, params) == Ok(w')
    ensures id in w.book.loans && w.book.loans[id].status.Active?
    ensures
      var l := w.book.loans[id];
      && WriteOff(w.book, l, l.remaining, l.(status := Defaulted)) == Ok(w'.book)
      && Forfeit(w.setup, w.vault, l) == Ok(w'.vault)
      && w' == w.(book := w'.book, vault := w'.vault, scores := w'.scores)
      && DecreaseScore(w.scores, l.borrower, Penalty(params, l)) == Ok(w'.scores)
  {
    hide WriteOff, Forfeit;
  }

  /** The pool's side of a default, against the exposure the loan leaves behind. */
  lemma DefaultPool(w: World, l: Loan, w': World)
    requires w.setup.pool != w.setup.credit && PP.PoolOk(w.vault.pool) && BookOk(w'.book) && LoanOk(l)
    requires Forfeit(w.setup, w.vault, l) == Ok(w'.vault) && w'.setup == w.setup
    requires Total(Exposure, w'.book) == Total(Exposure, w.book) - Shortfall(l)
    requires Total(Escrowed, w'.book) == Total(Escrowed, w.book) - l.guarantee
    requires Total(Forfeited, w'.book) == Total(Forfeited, w.book) + l.guarantee
    requires w.vault.pool.lockedLiquidity <= Total(Exposure, w.book)
    ensures PP.PoolOk(w'.vault.pool) && w'.vault.pool.lockedLiquidity <= Total(Exposure, w'.book)
    ensures Surplus(w') == Surplus(w) && w'.vault.pool.totalShares == w.vault.pool.totalShares
    ensures Slack(w) + Total(Forfeited, w.book) <= Slack(w') + Total(Forfeited, w'.book)
    ensures Shortfall(l) == 0 ==> w'.vault.pool.totalLiquidity >= w.vault.pool.totalLiquidity
  {
    hide Forfeit;
    ForfeitEffect(w.setup, w.vault, l);
    SumBounds(Exposure, w'.book.loans, w'.book.counter);
  }

  lemma DefaultFollows(w: World, id: nat, params: Params)
    requires WorldOk(w) && MarkDefaulted(w, id, params).Ok?
    ensures
      var w' := MarkDefaulted(w, id, params).value;
      && Follows(w, w') && Surplus(w') == Surplus(w)
      && w'.vault.pool.totalShares == w.vault.pool.totalShares
      && (Shortfall(w.book.loans[id]) == 0 ==> w'.vault.pool.totalLiquidity >= w.vault.pool.totalLiquidity)
  {
    hide MarkDefaulted, WriteOff, Forfeit;
    var w' := MarkDefaulted(w, id, params).value;
    DefaultParts(w, id, params, w');
    DefaultRecord(w.book, w.book.loans[id], w'.book);
    DefaultPool(w, w.book.loans[id], w');
  }

  // ---------------------------------------------------------------- every step, every run

  lemma OutsideFollows(w: World, op: Op)
    requires WorldOk(w) && Step(w, op).Ok?
    requires op.OutsideTransfer? || op.OutsideScore? || op.Advance?
    ensures Follows(w, Step(w, op).value) && Slack(w) <= Slack(Step(w, op).value)
    ensures Step(w, op).value.vault.pool == w.vault.pool
    ensures (op.OutsideTransfer? && op.to == w.setup.credit) || Surplus(Step(w, op).value) == Surplus(w)
  {
    if op.OutsideTransfer? {
      TransferMoves(w.vault.bal, op.from, op.to, op.amount);
    }
  }

  lemma CapsFollow(w: World, op: Op)
    requires WorldOk(w) && Step(w, op).Ok? && (op.CallSetOutflowCap? || op.CallSetExposureCap?)
    ensures Follows(w, Step(w, op).value) && Slack(w) == Slack(Step(w, op).value)
    ensures Surplus(Step(w, op).value) == Surplus(w)
    ensures Step(w, op).value.vault.pool.totalShares == w.vault.pool.totalShares
    ensures Step(w, op).value.vault.pool.totalLiquidity == w.vault.pool.totalLiquidity
  {
  }

  lemma StepFollows(w: World, op: Op)
    requires WorldOk(w) && Step(w, op).Ok?
    ensures Follows(w, Step(w, op).value)
    ensures !op.CallMarkDefaulted? ==> Slack(w) <= Slack(Step(w, op).value)
  {
    match op
    case CallDeposit(provider, amount) => DepositFollows(w, provider, amount);
    case CallWithdraw(provider, shares) => WithdrawFollows(w, provider, shares);
    case CallCreateLoan(user, vendor, total, guarantee, schedule, loanType, ctx) =>
      CreateFollows(w, user, vendor, total, guarantee, schedule, loanType, ctx);
    case CallRequestLoan(user, vendor, total, guarantee, schedule, loanType, ctx) =>
      RequestFollows(w, user, vendor, total, guarantee, schedule, loanType, ctx);
    case CallApproveLoan(caller, id, ctx) => ApproveFollows(w, caller, id, ctx);
    case CallCancelLoan(caller, id) => CancelFollows(w, caller, id);
    case CallRepayLoan(borrower, id, amount) => RepayFollows(w, borrower, id, amount);
    case CallRepayInstallment(borrower, id, i, amount) => InstallmentFollows(w, borrower, id, i, amount);
    case CallApplyLateFees(id) => LateFeesFollow(w, id);
    case CallMarkDefaulted(id, params) => DefaultFollows(w, id, params);
    case CallSetOutflowCap(_) => CapsFollow(w, op);
    case CallSetExposureCap(_) => CapsFollow(w, op);
    case _ => OutsideFollows(w, op);
  }
}
