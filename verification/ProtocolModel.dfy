/** Credit line, pool, token and reputation composed: one accepted call is one step from a world
    to the next. `Protocol.dfy` holds the contract objects proved against these steps. */
module ProtocolModel {
  import opened Common
  import opened Token
  import opened LoanModel
  import opened LoanIndex
  import opened Reputation
  import P = PoolModel

  /** The credit line's storage. */
  datatype Book = Book(loans: map<nat, Loan>, counter: nat, debts: map<Address, int>, index: Index)

  datatype World = World(setup: P.Setup, admin: Address, now: nat, ledger: nat,
                         vault: P.Vault, book: Book, scores: map<Address, nat>)

  /** What a funding call learns from other contracts: the protocol parameters, whether the vendor
      registry reports the vendor active, and whether the pool's own registry (if any) does. */
  datatype Context = Context(params: Params, vendorActive: bool, poolVendorOk: bool)

  const EMPTY_BOOK := Book(map[], 0, map[], EMPTY_INDEX)

  /** Only accounts sign entry points; neither contract calls them on its own behalf. */
  predicate Signs(c: P.Setup, a: Address) {
    a != c.pool && a != c.credit
  }

  function Debt(b: Book, a: Address): int {
    GetOr(b.debts, a, 0)
  }

  // ---------------------------------------------------------------- terms

  function CreditLimit(score: nat): int {
    if score >= 90 then 10_000 else if score >= 75 then 5_000 else if score >= 60 then 2_500 else 1_000
  }

  function InterestRate(baseBps: nat, score: nat): nat {
    if baseBps == 0 then
      if score >= 90 then 400 else if score >= 75 then 600 else if score >= 60 then 800 else 1_000
    else
      var discount := if score >= 90 then 600 else if score >= 75 then 400 else if score >= 60 then 200 else 0;
      Max(0, baseBps - discount)
  }

  function BpsAmount(base: int, bps: int): Result<int> {
    var scaled :- MulI128(base, bps);
    Ok(TruncDiv(scaled, BPS_DENOMINATOR))
  }

  function ValidateGuarantee(params: Params, total: int, guarantee: int): Result<()> {
    var _ :- Need(total > 0 && guarantee > 0, InvalidAmount);
    var _ :- Need(guarantee <= total, InvalidAmount);
    var scaled :- MulI128(total, params.minGuaranteePercent);
    var _ :- Need(guarantee >= TruncDiv(scaled, 100), InsufficientGuarantee);
    Ok(())
  }

  function ValidateReputation(params: Params, score: nat): Result<()> {
    var _ :- Need(score >= params.minReputation, InsufficientReputation);
    Ok(())
  }

  /** Reads the pool's statistics, which also price the shares, unless nothing is needed. */
  function ValidateLiquidity(p: P.Pool, required: int): Result<()> {
    if required == 0 then Ok(())
    else
      var _ :- P.SharePrice(p);
      var _ :- Need(P.Available(p) >= required, InsufficientLiquidity);
      Ok(())
  }

  /** The loan record for a purchase, within the borrower's credit limit. */
  function BuildLoan(b: Book, now: nat, user: Address, vendor: Address, total: int, guarantee: int,
                     schedule: seq<Installment>, score: nat, status: Status, loanType: LoanType,
                     ctx: Context): Result<Loan>
  {
    var _ :- ValidateGuarantee(ctx.params, total, guarantee);
    var _ :- Need(ctx.vendorActive, VendorNotActive);
    var rate := InterestRate(ctx.params.baseInterestBps, score);
    var interest :- BpsAmount(total, rate);
    var serviceFee :- BpsAmount(total, SERVICE_FEE_BPS);
    var withInterest :- AddI128(total, interest);
    var remaining :- AddI128(withInterest, serviceFee);
    var nextDebt :- AddI128(Debt(b, user), remaining);
    var _ :- Need(nextDebt <= CreditLimit(score), ExposureLimitExceeded);
    var id :- AddU64(b.counter, 1);
    Ok(Loan(id, user, vendor, total, guarantee, rate, interest, serviceFee,
            total, interest, serviceFee, remaining, schedule, status, loanType, now, 0, 0, 0))
  }

  // ---------------------------------------------------------------- storage

  function FindLoan(b: Book, id: nat): Result<Loan> {
    if id in b.loans then Ok(b.loans[id]) else Err(LoanNotFound)
  }

  /** Stores a loan and, when it is new, enters it in the borrower's index. */
  function WriteLoan(b: Book, l: Loan): Result<Book> {
    if l.id in b.loans then Ok(b.(loans := b.loans[l.id := l]))
    else
      var index :- Append(b.index, l.borrower, l.id);
      Ok(b.(loans := b.loans[l.id := l], index := index))
  }

  function AddDebt(b: Book, a: Address, amount: int): Result<Book> {
    var next :- AddI128(Debt(b, a), amount);
    Ok(b.(debts := b.debts[a := next]))
  }

  function SubDebt(b: Book, a: Address, amount: int): Result<Book> {
    var next :- SubI128(Debt(b, a), amount);
    Ok(b.(debts := b.debts[a := next]))
  }

  // ---------------------------------------------------------------- lending

  /** Stores a loan that becomes Active and adds its balance to the borrower's debt. */
  function EnterActive(b: Book, l: Loan): Result<Book> {
    var owed :- AddDebt(b, l.borrower, l.remaining);
    WriteLoan(owed, l)
  }

  function FundFromPool(w: World, l: Loan, ctx: Context): Result<P.Vault> {
    if l.total - l.guarantee > 0
    then P.FundLoan(w.setup, w.vault, w.ledger, l.vendor, l.total - l.guarantee, ctx.poolVendorOk)
    else Ok(w.vault)
  }

  /** Everything that can refuse a purchase before any state changes, and the loan it becomes. */
  function Underwrite(w: World, user: Address, vendor: Address, total: int, guarantee: int,
                      schedule: seq<Installment>, loanType: LoanType, ctx: Context): Result<Loan>
  {
    var _ :- Need(Signs(w.setup, user), NotAuthorized);
    var _ :- ValidateGuarantee(ctx.params, total, guarantee);
    var _ :- Need(ctx.vendorActive, VendorNotActive);
    var score := Score(w.scores, user);
    var _ :- ValidateReputation(ctx.params, score);
    var _ :- ValidateLiquidity(w.vault.pool, total - guarantee);
    var l :- BuildLoan(w.book, w.now, user, vendor, total, guarantee, schedule, score, Active, loanType, ctx);
    Ok(l.(fundedAt := w.now))
  }

  /** Enters an underwritten loan, pulls its guarantee and has the pool pay its part. */
  function OpenLoan(w: World, l: Loan, ctx: Context): Result<World> {
    var book :- EnterActive(w.book, l);
    var bal :- Transfer(w.vault.bal, l.borrower, w.setup.credit, l.guarantee);
    var vault :- FundFromPool(w.(vault := w.vault.(bal := bal)), l, ctx);
    Ok(w.(book := book, vault := vault))
  }

  function CreateLoan(w: World, user: Address, vendor: Address, total: int, guarantee: int,
                      schedule: seq<Installment>, loanType: LoanType, ctx: Context): Result<World>
  {
    var l :- Underwrite(w, user, vendor, total, guarantee, schedule, loanType, ctx);
    OpenLoan(w.(book := w.book.(counter := l.id)), l, ctx)
  }

  function RequestLoan(w: World, user: Address, vendor: Address, total: int, guarantee: int,
                       schedule: seq<Installment>, loanType: LoanType, ctx: Context): Result<World>
  {
    var _ :- Need(Signs(w.setup, user), NotAuthorized);
    var _ :- ValidateGuarantee(ctx.params, total, guarantee);
    var score := Score(w.scores, user);
    var _ :- ValidateReputation(ctx.params, score);
    var l :- BuildLoan(w.book, w.now, user, vendor, total, guarantee, schedule, score, Pending, loanType, ctx);
    var bal :- Transfer(w.vault.bal, user, w.setup.credit, guarantee);
    var book :- WriteLoan(w.book.(counter := l.id), l);
    Ok(w.(book := book, vault := w.vault.(bal := bal)))
  }

  /** A Pending loan whose schedule, parties and liquidity still allow it to be funded. */
  function Approvable(w: World, caller: Address, id: nat, ctx: Context): Result<Loan> {
    var _ :- Need(caller == w.admin, NotAuthorized);
    var l :- FindLoan(w.book, id);
    var _ :- Need(l.status.Pending?, InvalidLoanStatus);
    var _ :- Need(l.schedule != [], InvalidDueDate);
    var _ :- Need(forall i :: 0 <= i < |l.schedule| ==> l.schedule[i].dueDate > w.now, InvalidDueDate);
    var _ :- Need(ctx.vendorActive, VendorNotActive);
    var _ :- ValidateReputation(ctx.params, Score(w.scores, l.borrower));
    var _ :- ValidateLiquidity(w.vault.pool, l.total - l.guarantee);
    Ok(l)
  }

  function ApproveLoan(w: World, caller: Address, id: nat, ctx: Context): Result<World> {
    var l :- Approvable(w, caller, id, ctx);
    var book :- AddDebt(w.book, l.borrower, l.remaining);
    var vault :- FundFromPool(w, l, ctx);
    var stored :- WriteLoan(book, l.(status := Active, fundedAt := w.now));
    Ok(w.(book := stored, vault := vault))
  }

  function CancelLoan(w: World, caller: Address, id: nat): Result<World> {
    var _ :- Need(Signs(w.setup, caller), NotAuthorized);
    var l :- FindLoan(w.book, id);
    var _ :- Need(l.status.Pending?, LoanNotCancellable);
    var _ :- Need(caller == l.borrower || caller == w.admin, UnauthorizedRepayer);
    var _ :- Need(Bal(w.vault.bal, w.setup.credit) >= l.guarantee, InsufficientRefundBalance);
    var book :- WriteLoan(w.book, l.(status := Cancelled));
    var bal :- Transfer(w.vault.bal, w.setup.credit, l.borrower, l.guarantee);
    Ok(w.(book := book, vault := w.vault.(bal := bal)))
  }

  // ---------------------------------------------------------------- repayment

  function LastDue(l: Loan): nat {
    if l.schedule == [] then 0 else l.schedule[|l.schedule| - 1].dueDate
  }

  /** The reward for a full repayment. */
  function Reward(now: nat, l: Loan): nat {
    if now < LastDue(l) then 15 else 10
  }

  /** Books the fee of an accrual to the borrower. */
  function BookFee(b: Book, borrower: Address, fee: int): Result<Book> {
    if fee > 0 then AddDebt(b, borrower, fee) else Ok(b)
  }

  /** Takes `amount` off the debt of `l`'s borrower and stores the record `left`. */
  function WriteOff(b: Book, l: Loan, amount: int, left: Loan): Result<Book> {
    var owed :- SubDebt(b, l.borrower, amount);
    WriteLoan(owed, left)
  }

  /** Pulls a payment from the borrower and forwards it to the pool. */
  function Forward(c: P.Setup, v: P.Vault, from: Address, amount: int, principal: int, interest: int): Result<P.Vault> {
    var bal :- Transfer(v.bal, from, c.credit, amount);
    P.ReceiveRepayment(c, v.(bal := bal), principal, interest)
  }

  /** Moves the money of a payment; the guarantee goes back once the loan is paid. */
  function MovePayment(c: P.Setup, v: P.Vault, l: Loan, amount: int, paid: Loan): Result<P.Vault> {
    var a := Split(l, amount);
    var vault :- Forward(c, v, l.borrower, amount, a.principal, FeePart(a));
    if paid.status.Paid? then
      var refunded :- Transfer(vault.bal, c.credit, l.borrower, l.guarantee);
      Ok(vault.(bal := refunded))
    else Ok(vault)
  }

  function Settle(w: World, l: Loan, amount: int, paid: Loan): Result<World> {
    var book :- WriteOff(w.book, l, amount, paid);
    var vault :- MovePayment(w.setup, w.vault, l, amount, paid);
    var scores :- if paid.status.Paid? then IncreaseScore(w.scores, l.borrower, Reward(w.now, l)) else Ok(w.scores);
    Ok(w.(book := book, vault := vault, scores := scores))
  }

  /** The Active loan `id` of this borrower. */
  function Repayable(w: World, borrower: Address, id: nat): Result<Loan> {
    var _ :- Need(Signs(w.setup, borrower), NotAuthorized);
    var l :- FindLoan(w.book, id);
    var _ :- Need(l.borrower == borrower, UnauthorizedRepayer);
    var _ :- Need(l.status.Active?, LoanNotActive);
    Ok(l)
  }

  /** Accrues the fees due on `l`, which is not stored yet, and books them to its borrower. */
  function AccrueDue(b: Book, now: nat, l: Loan): Result<(Accrual, Book)> {
    var a :- Accrue(l, now);
    var book :- BookFee(b, l.borrower, a.fee);
    Ok((a, book))
  }

  function RepayLoan(w: World, borrower: Address, id: nat, amount: int): Result<World> {
    var l :- Repayable(w, borrower, id);
    var (a, book) :- AccrueDue(w.book, w.now, l);
    var _ :- Need(0 < amount <= a.loan.remaining, InvalidRepaymentAmount);
    Settle(w.(book := book), a.loan, amount, Pay(a.loan, amount))
  }

  function RepayInstallment(w: World, borrower: Address, id: nat, i: nat, amount: int): Result<World> {
    var l :- Repayable(w, borrower, id);
    var _ :- Need(i < |l.schedule|, InvalidInstallmentIndex);
    var _ :- Need(!(i < |l.schedule| && l.schedule[i].paid), InstallmentAlreadyPaid);
    var (a, book) :- AccrueDue(w.book, w.now, l);
    var _ :- Need(0 < amount <= a.loan.remaining, InvalidRepaymentAmount);
    var paid := Pay(a.loan, amount);
    Settle(w.(book := book), a.loan, amount, paid.(schedule := MarkPaid(paid.schedule, i, w.now)))
  }

  function ApplyLateFees(w: World, id: nat): Result<World> {
    var l :- FindLoan(w.book, id);
    var _ :- Need(l.status.Active?, LoanNotActive);
    var a :- Accrue(l, w.now);
    if a.fee == 0 then Ok(w)
    else
      var owed :- AddDebt(w.book, l.borrower, a.fee);
      var book :- WriteLoan(owed, a.loan);
      Ok(w.(book := book))
  }

  // ---------------------------------------------------------------- default

  /** Principal that the forfeited guarantee does not cover. */
  function Shortfall(l: Loan): int {
    Max(0, l.principal - l.guarantee)
  }

  function Penalty(params: Params, l: Loan): nat {
    if l.total > params.largeLoanThreshold then params.largeLoanDefaultPenalty else params.defaultPenalty
  }

  function Forfeit(c: P.Setup, v: P.Vault, l: Loan): Result<P.Vault> {
    var secured :- P.ReceiveGuarantee(c, v, l.guarantee);
    if Shortfall(l) > 0 then P.AbsorbLoss(secured, Shortfall(l)) else Ok(secured)
  }

  function MarkDefaulted(w: World, id: nat, params: Params): Result<World> {
    var l :- FindLoan(w.book, id);
    var _ :- Need(l.status.Active?, LoanNotActive);
    var _ :- Need(l.schedule != [], Overflow);
    var _ :- Need(w.now > LastDue(l), LoanNotOverdue);
    var graceEnds :- AddU64(LastDue(l), params.gracePeriod);
    var _ :- Need(w.now > graceEnds, LoanInGracePeriod);
    var book :- WriteOff(w.book, l, l.remaining, l.(status := Defaulted));
    var vault :- Forfeit(w.setup, w.vault, l);
    var scores :- DecreaseScore(w.scores, l.borrower, Penalty(params, l));
    Ok(w.(book := book, vault := vault, scores := scores))
  }

  // ---------------------------------------------------------------- steps and runs

  datatype Op =
    | CallDeposit(provider: Address, amount: int)
    | CallWithdraw(provider: Address, shares: int)
    | CallSetOutflowCap(bps: nat)
    | CallSetExposureCap(cap: int)
    | CallCreateLoan(user: Address, vendor: Address, total: int, guarantee: int,
                 schedule: seq<Installment>, loanType: LoanType, ctx: Context)
    | CallRequestLoan(user: Address, vendor: Address, total: int, guarantee: int,
                  schedule: seq<Installment>, loanType: LoanType, ctx: Context)
    | CallApproveLoan(caller: Address, id: nat, ctx: Context)
    | CallCancelLoan(caller: Address, id: nat)
    | CallRepayLoan(borrower: Address, id: nat, amount: int)
    | CallRepayInstallment(borrower: Address, id: nat, i: nat, amount: int)
    | CallApplyLateFees(id: nat)
    | CallMarkDefaulted(id: nat, params: Params)
      // the rest of the chain: time passes, accounts move tokens, other updaters set scores
    | Advance(now: nat, ledger: nat)
    | OutsideTransfer(from: Address, to: Address, amount: int)
    | OutsideScore(user: Address, score: nat)

  function Step(w: World, op: Op): Result<World> {
    match op
    case CallDeposit(provider, amount) =>
      var _ :- Need(Signs(w.setup, provider), NotAuthorized);
      var r :- P.Deposit(w.setup, w.vault, provider, amount);
      Ok(w.(vault := r.0))
    case CallWithdraw(provider, shares) =>
      var _ :- Need(Signs(w.setup, provider), NotAuthorized);
      var r :- P.Withdraw(w.setup, w.vault, provider, shares);
      Ok(w.(vault := r.0))
    case CallSetOutflowCap(bps) =>
      var vault :- P.SetOutflowCap(w.vault, bps);
      Ok(w.(vault := vault))
    case CallSetExposureCap(cap) =>
      var vault :- P.SetExposureCap(w.vault, cap);
      Ok(w.(vault := vault))
    case CallCreateLoan(user, vendor, total, guarantee, schedule, loanType, ctx) =>
      CreateLoan(w, user, vendor, total, guarantee, schedule, loanType, ctx)
    case CallRequestLoan(user, vendor, total, guarantee, schedule, loanType, ctx) =>
      RequestLoan(w, user, vendor, total, guarantee, schedule, loanType, ctx)
    case CallApproveLoan(caller, id, ctx) => ApproveLoan(w, caller, id, ctx)
    case CallCancelLoan(caller, id) => CancelLoan(w, caller, id)
    case CallRepayLoan(borrower, id, amount) => RepayLoan(w, borrower, id, amount)
    case CallRepayInstallment(borrower, id, i, amount) => RepayInstallment(w, borrower, id, i, amount)
    case CallApplyLateFees(id) => ApplyLateFees(w, id)
    case CallMarkDefaulted(id, params) => MarkDefaulted(w, id, params)
    case Advance(now, ledger) =>
      var _ :- Need(w.now <= now <= U64_MAX && w.ledger <= ledger, ClockReversed);
      Ok(w.(now := now, ledger := ledger))
    case OutsideTransfer(from, to, amount) =>
      var _ :- Need(Signs(w.setup, from), NotAuthorized);
      var bal :- Transfer(w.vault.bal, from, to, amount);
      Ok(w.(vault := w.vault.(bal := bal)))
    case OutsideScore(user, score) =>
      var _ :- Need(score <= MAX_SCORE, OutOfBounds);
      Ok(w.(scores := w.scores[user := score]))
  }

  /** The host applies an accepted call and rolls a rejected one back. */
  function Apply(w: World, op: Op): World {
    match Step(w, op)
    case Ok(w') => w'
    case Err(_) => w
  }

  function Run(w: World, ops: seq<Op>): World {
    if ops == [] then w else Apply(Run(w, ops[..|ops| - 1]), ops[|ops| - 1])
  }

  /** A world just deployed: no deposits, no loans; accounts hold whatever tokens they hold. */
  predicate Initial(w: World) {
    && w.setup.pool != w.setup.credit
    && Signs(w.setup, w.admin)
    && w.vault.pool == P.EMPTY_POOL && w.book == EMPTY_BOOK
    && w.now <= U64_MAX
    && 0 <= Bal(w.vault.bal, w.setup.pool) && 0 <= Bal(w.vault.bal, w.setup.credit)
    && (forall a :: a in w.scores ==> w.scores[a] <= MAX_SCORE)
  }
}
