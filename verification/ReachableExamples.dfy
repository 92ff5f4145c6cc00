/** Reachable worlds in which a call fails that one might expect to go through, or a promise fails
    that holds only under a condition: the exact conditions of the theorems are real. */
module ReachableExamples {
  import opened Common
  import opened LoanModel
  import opened LoanIndex
  import opened ProtocolModel
  import opened Token
  import opened BookProofs
  import opened ProtocolProofs
  import opened ProtocolRuns
  import opened Arithmetic
  import opened Reputation
  import AT = AcceptanceTheorems
  import P = PoolModel
  import PP = PoolProofs

  const POOL: Address := 0
  const CREDIT: Address := 1
  const PROVIDER: Address := 2
  const ALICE: Address := 3
  const BOB: Address := 4
  const VENDOR: Address := 5
  const ADMIN: Address := 6

  const TERMS := Params(20, 50, 20, 5_000, 30, 0, 0)
  const CONTEXT := Context(TERMS, true, true)
  const SCHEDULE := [Installment(10, 1_000, false, 0)]

  const DEPLOYED := World(P.Setup(POOL, CREDIT, None, None), ADMIN, 0, 0,
                          P.Vault(P.EMPTY_POOL, map[PROVIDER := 2_000, ALICE := 200, BOB := 200]),
                          EMPTY_BOOK, map[ALICE := 80, BOB := 80])

  /** Alice's or Bob's loan: 1000 with a guarantee of 200. */
  function LoanOf(id: nat, borrower: Address): Loan {
    Loan(id, borrower, VENDOR, 1_000, 200, 600, 60, 10, 1_000, 60, 10, 1_070, SCHEDULE, Active, Standard, 0, 0, 0, 0)
  }

  function Lend(borrower: Address): Op {
    CallCreateLoan(borrower, VENDOR, 1_000, 200, SCHEDULE, Standard, CONTEXT)
  }

  /** What Alice's and Bob's loans do to the pool's books and the token balances. */
  lemma Funded800(w: World, id: nat, borrower: Address)
    requires w.setup == DEPLOYED.setup
    requires w.vault.pool.outflowCapBps == 0 && w.vault.pool.exposureCap == 0 && w.vault.pool.totalLiquidity == 2_000
    requires 0 <= P.Funded(w.vault.pool, VENDOR) <= 1_000 && 0 <= w.vault.pool.lockedLiquidity <= 800
    requires 800 <= Bal(w.vault.bal, POOL) && 0 <= Bal(w.vault.bal, VENDOR) <= 1_000
    ensures FundFromPool(w, LoanOf(id, borrower), CONTEXT).Ok?
    ensures
      var v' := FundFromPool(w, LoanOf(id, borrower), CONTEXT).value;
      && v'.pool == w.vault.pool.(lockedLiquidity := w.vault.pool.lockedLiquidity + 800,
                                  merchantFunded := v'.pool.merchantFunded, fundings := v'.pool.fundings)
      && P.Funded(v'.pool, VENDOR) == P.Funded(w.vault.pool, VENDOR) + 800
      && Transfer(w.vault.bal, POOL, VENDOR, 800) == Ok(v'.bal)
  {
  }

  /** The parts of a world that matter here, after `n` loans. */
  predicate Stage(w: World, n: nat) {
    && w.setup == DEPLOYED.setup && w.scores == DEPLOYED.scores && w.book.counter == n <= 2
    && w.vault.pool.totalShares == 3_000 && w.vault.pool.totalLiquidity == 2_000
    && w.vault.pool.lpShares == map[PROVIDER := 2_000]
    && w.vault.pool.outflowCapBps == 0 && w.vault.pool.exposureCap == 0
    && P.Funded(w.vault.pool, VENDOR) == w.vault.pool.lockedLiquidity == 800 * n
    && Bal(w.vault.bal, POOL) == 2_000 - 800 * n && Bal(w.vault.bal, CREDIT) == 200 * n
    && Bal(w.vault.bal, VENDOR) == 800 * n && Bal(w.vault.bal, PROVIDER) == 0
    && Bal(w.vault.bal, BOB) == (if n < 2 then 200 else 0) && Bal(w.vault.bal, ALICE) == (if n < 1 then 200 else 0)
    && w.book.loans == (if n == 0 then map[] else if n == 1 then map[1 := LoanOf(1, ALICE)]
                        else map[1 := LoanOf(1, ALICE), 2 := LoanOf(2, BOB)])
    && Debt(w.book, ALICE) == (if n < 1 then 0 else 1_070) && Debt(w.book, BOB) == (if n < 2 then 0 else 1_070)
    && Count(w.book.index, ALICE) == (if n < 1 then 0 else 1) && Count(w.book.index, BOB) == (if n < 2 then 0 else 1)
  }

  function Lending(w: World, borrower: Address): Result<World> {
    CreateLoan(w, borrower, VENDOR, 1_000, 200, SCHEDULE, Standard, CONTEXT)
  }

  lemma Built(b: Book, n: nat, borrower: Address)
    requires b.counter == n < 2 && Debt(b, borrower) == 0
    ensures BuildLoan(b, 0, borrower, VENDOR, 1_000, 200, SCHEDULE, 80, Active, Standard, CONTEXT)
         == Ok(LoanOf(n + 1, borrower).(fundedAt := 0))
  {
    assert InterestRate(0, 80) == 600;
  }

  lemma Entered(b: Book, n: nat, borrower: Address)
    requires n < 2 && b.counter == n && n + 1 !in b.loans && Debt(b, borrower) == 0 && Count(b.index, borrower) == 0
    ensures EnterActive(b.(counter := n + 1), LoanOf(n + 1, borrower)).Ok?
    ensures
      var b' := EnterActive(b.(counter := n + 1), LoanOf(n + 1, borrower)).value;
      && b'.counter == n + 1 && b'.loans == b.loans[n + 1 := LoanOf(n + 1, borrower)]
      && b'.debts == b.debts[borrower := 1_070]
      && b'.index.counts == b.index.counts[borrower := 1]
  {
  }

  /** Lending 1000 against a guarantee of 200 costs the pool 800. */
  lemma Lent(w: World, n: nat, borrower: Address) returns (bal: Balances, v: P.Vault, b: Book)
    requires n < 2 && Stage(w, n) && w.now == 0 && borrower == (if n == 0 then ALICE else BOB)
    ensures Lending(w, borrower) == Ok(w.(book := b, vault := v))
    ensures Transfer(w.vault.bal, borrower, CREDIT, 200) == Ok(bal) && Transfer(bal, POOL, VENDOR, 800) == Ok(v.bal)
    ensures v.pool == w.vault.pool.(lockedLiquidity := w.vault.pool.lockedLiquidity + 800,
                                    merchantFunded := v.pool.merchantFunded, fundings := v.pool.fundings)
    ensures P.Funded(v.pool, VENDOR) == P.Funded(w.vault.pool, VENDOR) + 800
    ensures b.counter == n + 1 && b.loans == w.book.loans[n + 1 := LoanOf(n + 1, borrower)]
    ensures b.debts == w.book.debts[borrower := 1_070] && b.index.counts == w.book.index.counts[borrower := 1]
  {
    hide BuildLoan, EnterActive, FundFromPool;
    assert P.SharePrice(w.vault.pool) == Ok(10_000);
    Built(w.book, n, borrower);
    Entered(w.book, n, borrower);
    bal := Transfer(w.vault.bal, borrower, CREDIT, 200).value;
    var w1 := w.(book := w.book.(counter := n + 1), vault := w.vault.(bal := bal));
    Funded800(w1, n + 1, borrower);
    v := FundFromPool(w1, LoanOf(n + 1, borrower), CONTEXT).value;
    b := EnterActive(w.book.(counter := n + 1), LoanOf(n + 1, borrower)).value;
  }

  lemma NextStage(w: World, n: nat, borrower: Address) returns (w': World)
    requires n < 2 && Stage(w, n) && w.now == 0 && borrower == (if n == 0 then ALICE else BOB)
    ensures Lending(w, borrower) == Ok(w') && Stage(w', n + 1) && w'.now == 0 && w'.ledger == w.ledger
  {
    hide Lending;
    var bal, v, b := Lent(w, n, borrower);
    w' := w.(book := b, vault := v);
  }

  /** The world after the first deposit. */
  const FUNDED := DEPLOYED.(vault := P.Vault(
    P.EMPTY_POOL.(totalShares := 3_000, totalLiquidity := 2_000, lpShares := map[PROVIDER := 2_000]),
    DEPLOYED.vault.bal[PROVIDER := 0][POOL := 2_000]))

  /** The provider's first deposit, at par. */
  lemma Deposited()
    ensures Step(DEPLOYED, CallDeposit(PROVIDER, 2_000)) == Ok(FUNDED)
  {
    assert P.SharePrice(P.EMPTY_POOL.(totalShares := 1_000)) == Ok(10_000);
  }

  lemma DeployedReachable()
    ensures Reachable(DEPLOYED)
  {
    assert Initial(DEPLOYED) && DEPLOYED == Run(DEPLOYED, []);
  }

  lemma FirstStage()
    ensures Stage(FUNDED, 0)
  {
  }

  lemma LendIsStep(w: World, borrower: Address)
    ensures Step(w, Lend(borrower)) == Lending(w, borrower)
  {
    hide CreateLoan;
  }

  lemma Reached(w: World, op: Op, w': World)
    requires Reachable(w) && Step(w, op) == Ok(w')
    ensures Reachable(w')
  {
    ReachableStep(w, op);
  }

  /** Alice's default, once it is overdue. */
  lemma Defaulted(w: World)
    requires Stage(w, 2) && w.now == 11
    ensures MarkDefaulted(w, 1, TERMS).Ok?
    ensures
      var w' := MarkDefaulted(w, 1, TERMS).value;
      && w'.setup == w.setup
      && w'.vault.pool == w.vault.pool.(lockedLiquidity := 600, totalLiquidity := 1_400)
      && Bal(w'.vault.bal, POOL) == 600 && Bal(w'.vault.bal, PROVIDER) == 0
  {
    assert Forfeit(w.setup, w.vault, LoanOf(1, ALICE)).Ok?;
  }

  /** The provider's 1000 shares are then worth the 800 that count as available, but the pool only
      holds 600: the withdrawal passes the accounting and fails in the token. */
  lemma Refused(w: World)
    requires w.setup == DEPLOYED.setup && Bal(w.vault.bal, POOL) == 600
    requires w.vault.pool.totalShares == 3_000 && w.vault.pool.totalLiquidity == 1_400
    requires w.vault.pool.lockedLiquidity == 600 && w.vault.pool.lpShares == map[PROVIDER := 2_000]
    ensures P.Withdraw(w.setup, w.vault, PROVIDER, 1_000) == Err(InsufficientBalance)
  {
    assert P.SharePrice(w.vault.pool) == Ok(8_000);
  }

  lemma Borrowed(w: World, n: nat, borrower: Address) returns (w': World)
    requires n < 2 && Reachable(w) && Stage(w, n) && w.now == 0 && borrower == (if n == 0 then ALICE else BOB)
    ensures Reachable(w') && Stage(w', n + 1) && w'.now == 0 && w'.ledger == w.ledger
  {
    w' := NextStage(w, n, borrower);
    LendIsStep(w, borrower);
    Reached(w, Lend(borrower), w');
  }

  /** After the deposit and both loans, on the day after they were due. */
  lemma Overdue() returns (w: World)
    ensures Reachable(w) && Stage(w, 2) && w.now == 11
  {
    var w2 := BothBorrowed();
    w := w2.(now := 11);
    Reached(w2, Advance(11, 0), w);
  }

  /** The world after Alice's default. */
  lemma AfterDefault() returns (w: World)
    ensures Reachable(w) && w.setup == DEPLOYED.setup && Bal(w.vault.bal, POOL) == 600
    ensures w.vault.pool.totalShares == 3_000 && w.vault.pool.totalLiquidity == 1_400
    ensures w.vault.pool.lockedLiquidity == 600 && w.vault.pool.lpShares == map[PROVIDER := 2_000]
  {
    var due := Overdue();
    Defaulted(due);
    w := MarkDefaulted(due, 1, TERMS).value;
    Reached(due, CallMarkDefaulted(1, TERMS), w);
  }

  /** A reachable world in which a withdrawal within the available liquidity cannot be paid: with
      two Active loans, one default leaves the pool short. */
  lemma DefaultCanLeavePoolShort() returns (w: World)
    ensures Reachable(w)
    ensures Bal(w.vault.bal, w.setup.pool) == 600 < P.Available(w.vault.pool) == 800
    ensures P.Withdraw(w.setup, w.vault, PROVIDER, 1_000) == Err(InsufficientBalance)
  {
    w := AfterDefault();
    Refused(w);
  }

  lemma ClaimOfOne(p: P.Pool)
    requires p.totalShares == 3_000 && p.totalLiquidity == 1_400 && p.lpShares == map[PROVIDER := 2_000]
    ensures PP.Quote(p) == 8_000 && SumOf(PP.Claims(p.lpShares, 8_000)) == 1_600
  {
    var claims := PP.Claims(p.lpShares, 8_000);
    assert claims == map[PROVIDER := 1_600];
    SumRemove(claims, PROVIDER);
    assert claims - {PROVIDER} == map[];
  }

  /** A reachable world below par in which the providers' claims exceed the pool's liquidity. */
  lemma ClaimsCanExceedLiquidity() returns (w: World)
    ensures Reachable(w) && 0 <= w.vault.pool.totalShares && PP.Quote(w.vault.pool) == 8_000 < P.PRECISION
    ensures SumOf(PP.Claims(w.vault.pool.lpShares, PP.Quote(w.vault.pool))) == 1_600 > w.vault.pool.totalLiquidity
  {
    w := AfterDefault();
    ClaimOfOne(w.vault.pool);
  }

  lemma BothBorrowed() returns (w: World)
    ensures Reachable(w) && Stage(w, 2) && w.now == 0 && w.ledger == 0
  {
    DeployedReachable();
    Deposited();
    Reached(DEPLOYED, CallDeposit(PROVIDER, 2_000), FUNDED);
    FirstStage();
    var w1 := Borrowed(FUNDED, 0, ALICE);
    w := Borrowed(w1, 1, BOB);
  }

  /** Alice holds all she owes, and has 91 points. */
  lemma AliceCanPay() returns (w: World)
    ensures Reachable(w) && w.now == 0 && w.setup == DEPLOYED.setup
    ensures w.book.loans == map[1 := LoanOf(1, ALICE), 2 := LoanOf(2, BOB)]
    ensures Score(w.scores, ALICE) == 91 && Bal(w.vault.bal, ALICE) == 1_070
  {
    hide Stage;
    var w2 := BothBorrowed();
    StageFacts(w2);
    var bal := Transfer(w2.vault.bal, VENDOR, ALICE, 1_070).value;
    var w3 := w2.(vault := w2.vault.(bal := bal));
    Reached(w2, OutsideTransfer(VENDOR, ALICE, 1_070), w3);
    w := w3.(scores := w3.scores[ALICE := 91]);
    Reached(w3, OutsideScore(ALICE, 91), w);
  }

  lemma StageFacts(w: World)
    requires Stage(w, 2)
    ensures w.setup == DEPLOYED.setup && w.book.loans == map[1 := LoanOf(1, ALICE), 2 := LoanOf(2, BOB)]
    ensures Bal(w.vault.bal, VENDOR) == 1_600 && Bal(w.vault.bal, ALICE) == 0
  {
  }

  lemma NothingAccrued(w: World)
    requires w.now == 0 && 1 in w.book.loans && w.book.loans[1] == LoanOf(1, ALICE)
    ensures Accrue(w.book.loans[1], w.now) == Ok(Accrual(w.book.loans[1], 0, 0))
  {
  }

  /** A reachable world in which a borrower who holds all that an Active loan owes cannot settle
      it: with 91 points the reward does not fit. */
  lemma PayoffCanBeBlocked() returns (w: World)
    ensures Reachable(w) && 1 in w.book.loans && w.book.loans[1].status.Active? && w.book.loans[1].borrower == ALICE
    ensures Accrue(w.book.loans[1], w.now) == Ok(Accrual(w.book.loans[1], 0, 0))
    ensures w.book.loans[1].remaining == Bal(w.vault.bal, ALICE) == 1_070 && Score(w.scores, ALICE) == 91
    ensures Step(w, CallRepayLoan(ALICE, 1, 1_070)).Err? && Step(w, CallRepayInstallment(ALICE, 1, 0, 1_070)).Err?
  {
    hide Step, Accrue, WorldOk;
    w := AliceCanPay();
    NothingAccrued(w);
    ReachableBook(w);
    AT.PayoffNeedsHeadroom(w, CallRepayLoan(ALICE, 1, 1_070));
    AT.PayoffNeedsHeadroom(w, CallRepayInstallment(ALICE, 1, 0, 1_070));
  }

  lemma ReachableBook(w: World)
    requires Reachable(w)
    ensures BookOk(w.book)
  {
    ReachableOk(w);
  }

  /** A reachable world in which an overdue loan cannot be marked defaulted, and so keeps its
      principal locked: its borrower has fewer points than the penalty takes. */
  lemma DefaultCanBeBlocked() returns (w: World)
    ensures Reachable(w) && 1 in w.book.loans && w.book.loans[1].status.Active? && w.book.loans[1].borrower == ALICE
    ensures LastDue(w.book.loans[1]) + TERMS.gracePeriod < w.now && w.vault.pool.lockedLiquidity == 1_600
    ensures Score(w.scores, ALICE) == 19 < Penalty(TERMS, w.book.loans[1]) && MarkDefaulted(w, 1, TERMS).Err?
  {
    var due := Overdue();
    w := due.(scores := due.scores[ALICE := 19]);
    Reached(due, OutsideScore(ALICE, 19), w);
  }

  // ---------------------------------------------------------------- an approval above the limit

  const ASKED := LoanOf(1, ALICE).(status := Pending)

  lemma Asked() returns (w: World)
    ensures RequestLoan(FUNDED, ALICE, VENDOR, 1_000, 200, SCHEDULE, Standard, CONTEXT) == Ok(w)
    ensures w.book.loans == map[1 := ASKED] && w.book.counter == 1 && w.book.debts == map[]
    ensures Transfer(FUNDED.vault.bal, ALICE, CREDIT, 200) == Ok(w.vault.bal)
    ensures w == FUNDED.(book := w.book, vault := FUNDED.vault.(bal := w.vault.bal))
  {
    assert InterestRate(0, 80) == 600;
    w := RequestLoan(FUNDED, ALICE, VENDOR, 1_000, 200, SCHEDULE, Standard, CONTEXT).value;
  }

  lemma ApprovedAnyway(w: World) returns (w': World)
    requires w.setup == DEPLOYED.setup && w.admin == ADMIN && w.now == 0 && w.vault.pool == FUNDED.vault.pool
    requires w.book.loans == map[1 := ASKED] && w.book.debts == map[] && Score(w.scores, ALICE) == 55
    requires Bal(w.vault.bal, POOL) == 2_000 && Bal(w.vault.bal, VENDOR) == 0
    ensures ApproveLoan(w, ADMIN, 1, CONTEXT) == Ok(w') && Debt(w'.book, ALICE) == 1_070 && w'.scores == w.scores
  {
    hide FundFromPool;
    assert P.SharePrice(w.vault.pool) == Ok(10_000);
    Funded800(w, 1, ALICE);
    SamePart(w);
    w' := ApproveLoan(w, ADMIN, 1, CONTEXT).value;
  }

  lemma SamePart(w: World)
    ensures FundFromPool(w, ASKED, CONTEXT) == FundFromPool(w, LoanOf(1, ALICE), CONTEXT)
  {
  }

  /** A reachable world in which a borrower owes more than its credit limit: Alice asked for a loan
      with 80 points and had 55 left when it was approved. */
  lemma ApprovalCanExceedLimit() returns (w: World)
    ensures Reachable(w) && Debt(w.book, ALICE) == 1_070 > CreditLimit(Score(w.scores, ALICE)) == 1_000
  {
    hide Step, RequestLoan, ApproveLoan;
    DeployedReachable();
    Deposited();
    Reached(DEPLOYED, CallDeposit(PROVIDER, 2_000), FUNDED);
    var w1 := Asked();
    RequestIsStep(FUNDED);
    Reached(FUNDED, CallRequestLoan(ALICE, VENDOR, 1_000, 200, SCHEDULE, Standard, CONTEXT), w1);
    var w2 := w1.(scores := w1.scores[ALICE := 55]);
    ScoreIsStep(w1, ALICE, 55);
    Reached(w1, OutsideScore(ALICE, 55), w2);
    w := ApprovedAnyway(w2);
    ApproveIsStep(w2);
    Reached(w2, CallApproveLoan(ADMIN, 1, CONTEXT), w);
  }

  lemma RequestIsStep(w: World)
    ensures Step(w, CallRequestLoan(ALICE, VENDOR, 1_000, 200, SCHEDULE, Standard, CONTEXT))
         == RequestLoan(w, ALICE, VENDOR, 1_000, 200, SCHEDULE, Standard, CONTEXT)
  {
    hide RequestLoan;
  }

  lemma ScoreIsStep(w: World, a: Address, score: nat)
    requires score <= MAX_SCORE
    ensures Step(w, OutsideScore(a, score)) == Ok(w.(scores := w.scores[a := score]))
  {
  }

  lemma ApproveIsStep(w: World)
    ensures Step(w, CallApproveLoan(ADMIN, 1, CONTEXT)) == ApproveLoan(w, ADMIN, 1, CONTEXT)
  {
    hide ApproveLoan;
  }
}
