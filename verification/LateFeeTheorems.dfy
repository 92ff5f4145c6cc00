/** The late-fee cursor of every stored loan, over whole runs of the protocol. */
module LateFeeTheorems {
  import opened Common
  import opened LoanModel
  import opened ProtocolModel
  import opened BookProofs
  import opened ProtocolProofs
  import opened LifecycleProofs
  import opened ProtocolRuns
  import LP = LoanProofs

  /** The late-fee days that a call charges to loan `id`. */
  function DaysOf(w: World, op: Op, id: nat): nat {
    if (op.CallRepayLoan? || op.CallRepayInstallment? || op.CallApplyLateFees?) && op.id == id
       && Step(w, op).Ok? && id in w.book.loans && Accrue(w.book.loans[id], w.now).Ok?
    then Accrue(w.book.loans[id], w.now).value.days
    else 0
  }

  function DaysCharged(w: World, ops: seq<Op>, id: nat): nat {
    if ops == [] then 0
    else DaysCharged(w, ops[..|ops| - 1], id) + DaysOf(Run(w, ops[..|ops| - 1]), ops[|ops| - 1], id)
  }

  /** Loan `id` has been charged `days` days so far; none if there is no such loan yet. */
  predicate Tracked(w: World, id: nat, days: nat) {
    if id in w.book.loans then LP.CursorOk(w.book.loans[id], days, w.now) else days == 0
  }

  /** A payment moves the cursor by the days it accrues, also when it marks an installment paid. */
  lemma PaidCursor(l: Loan, now: nat, days: nat, amount: int, left: Loan)
    requires LP.CursorOk(l, days, now) && Accrue(l, now).Ok?
    requires left == Pay(Accrue(l, now).value.loan, amount).(schedule := left.schedule)
    requires left.schedule == l.schedule || exists i: nat :: left.schedule == MarkPaid(l.schedule, i, now)
    ensures LP.CursorOk(left, days + Accrue(l, now).value.days, now)
  {
    LP.AccrueMovesCursor(l, days, now, now);
    LP.SameDatesSameStart(l.schedule, left.schedule);
  }

  lemma PaymentTracks(w: World, op: Op, days: nat)
    requires BookOk(w.book) && Step(w, op).Ok? && (op.CallRepayLoan? || op.CallRepayInstallment?)
    requires Tracked(w, op.id, days)
    ensures Tracked(Step(w, op).value, op.id, days + DaysOf(w, op, op.id))
  {
    hide LP.CursorOk, Accrue, BookOk, RepayLoan, RepayInstallment;
    PaymentTouchesOne(w, op);
    AccrueShape(w.book.loans[op.id], w.now);
    PaidCursor(w.book.loans[op.id], w.now, days, op.amount, Step(w, op).value.book.loans[op.id]);
  }

  lemma FeesTrack(w: World, op: Op, days: nat)
    requires BookOk(w.book) && Step(w, op).Ok? && op.CallApplyLateFees? && Tracked(w, op.id, days)
    ensures Tracked(Step(w, op).value, op.id, days + DaysOf(w, op, op.id))
  {
    hide LP.CursorOk;
    LP.AccrueMovesCursor(w.book.loans[op.id], days, w.now, w.now);
    LP.AccrueKeepsLoan(w.book.loans[op.id], w.now);
  }

  /** Funding, cancelling and defaulting leave cursor and schedule alone. */
  lemma StatusTracks(w: World, op: Op, days: nat)
    requires BookOk(w.book) && Step(w, op).Ok? && (op.CallApproveLoan? || op.CallCancelLoan? || op.CallMarkDefaulted?)
    requires Tracked(w, op.id, days)
    ensures Tracked(Step(w, op).value, op.id, days)
  {
    hide FundFromPool, Forfeit, LoanOk;
  }

  /** A new loan has been charged nothing. */
  lemma OpeningTracks(w: World, op: Op)
    requires BookOk(w.book) && Step(w, op).Ok? && (op.CallCreateLoan? || op.CallRequestLoan?)
    ensures Tracked(Step(w, op).value, w.book.counter + 1, 0)
  {
    if op.CallCreateLoan? {
      var _, _ := CreateParts(w, op.user, op.vendor, op.total, op.guarantee, op.schedule, op.loanType, op.ctx);
    } else {
      var _ := RequestParts(w, op.user, op.vendor, op.total, op.guarantee, op.schedule, op.loanType, op.ctx);
    }
  }

  lemma StepTracksTarget(w: World, op: Op, days: nat)
    requires BookOk(w.book) && Step(w, op).Ok? && Target(w, op) != 0 && Tracked(w, Target(w, op), days)
    ensures Tracked(Step(w, op).value, Target(w, op), days + DaysOf(w, op, Target(w, op)))
  {
    hide Step, Tracked, BookOk;
    if op.CallRepayLoan? || op.CallRepayInstallment? {
      PaymentTracks(w, op, days);
    } else if op.CallApplyLateFees? {
      FeesTrack(w, op, days);
    } else if op.CallCreateLoan? || op.CallRequestLoan? {
      OpeningTracks(w, op);
      NewIsUntracked(w, days);
    } else {
      StatusTracks(w, op, days);
    }
  }

  lemma NewIsUntracked(w: World, days: nat)
    requires BookOk(w.book) && Tracked(w, w.book.counter + 1, days)
    ensures days == 0
  {
  }

  /** A call leaves the cursors of all other loans alone, whatever it does to the clock. */
  lemma StepTracksOthers(w: World, op: Op, id: nat, days: nat)
    requires BookOk(w.book) && Step(w, op).Ok? && (id != Target(w, op) || id == 0) && Tracked(w, id, days)
    requires w.now <= Step(w, op).value.now
    ensures Tracked(Step(w, op).value, id, days) && DaysOf(w, op, id) == 0
  {
    hide Step;
    StepTouchesOne(w, op);
  }

  lemma ApplyTracks(w: World, op: Op, id: nat, days: nat)
    requires AllOk(w) && Tracked(w, id, days)
    ensures Tracked(Apply(w, op), id, days + DaysOf(w, op, id))
  {
    hide Step, Tracked;
    if Step(w, op).Ok? {
      StepFollows(w, op);
      if id == Target(w, op) && id != 0 {
        StepTracksTarget(w, op, days);
      } else {
        StepTracksOthers(w, op, id, days);
      }
    }
  }

  lemma {:induction false} RunTracks(w: World, ops: seq<Op>, id: nat, days: nat)
    requires AllOk(w) && Tracked(w, id, days)
    ensures Tracked(Run(w, ops), id, days + DaysCharged(w, ops, id))
  {
    hide Tracked, AllOk, DaysOf, Apply;
    if ops != [] {
      var front := ops[..|ops| - 1];
      RunTracks(w, front, id, days);
      RunFollows(w, front);
      ApplyTracks(Run(w, front), ops[|ops| - 1], id, days + DaysCharged(w, front, id));
    }
  }

  /** No late-fee day is lost or charged twice, in any run from deployment: the cursor of a loan is
      0 if its calls have charged no day, and else lies exactly as many days past the earliest due
      date as they have charged, and not past the clock. */
  lemma CursorAccountsForRun(w: World, ops: seq<Op>, id: nat)
    requires Initial(w) && id in Run(w, ops).book.loans
    ensures
      var l, days := Run(w, ops).book.loans[id], DaysCharged(w, ops, id);
      && l.cursor <= Run(w, ops).now
      && (l.cursor == 0 <==> days == 0)
      && (days > 0 ==> EarliestDue(l.schedule).Some?
                       && l.cursor == EarliestDue(l.schedule).value + 86_400 * days)
  {
    hide Run, DaysCharged;
    InitialAllOk(w);
    RunTracks(w, ops, id, 0);
  }

  // ---------------------------------------------------------------- growth

  /** How many calls charge late fees to loan `id`. */
  function ChargingCalls(w: World, ops: seq<Op>, id: nat): nat {
    if ops == [] then 0
    else
      var front := ops[..|ops| - 1];
      ChargingCalls(w, front, id) + if DaysOf(Run(w, front), ops[|ops| - 1], id) > 0 then 1 else 0
  }

  predicate PaysLoan(op: Op, id: nat) {
    (op.CallRepayLoan? || op.CallRepayInstallment?) && op.id == id
  }

  function Balance(w: World, id: nat): int {
    if id in w.book.loans then w.book.loans[id].remaining else 0
  }

  lemma FeesGrow(w: World, op: Op, id: nat)
    requires BookOk(w.book) && Step(w, op).Ok? && op == CallApplyLateFees(id)
    ensures id in w.book.loans && Balance(w, id) >= 0
    ensures Balance(Step(w, op).value, id) == Balance(w, id) + Balance(w, id) * DaysOf(w, op, id) / 200
    ensures DaysOf(w, op, id) == 0 ==> Balance(Step(w, op).value, id) == Balance(w, id)
  {
    hide Accrue;
    LP.AccrueKeepsLoan(w.book.loans[id], w.now);
    LP.AccrualGrows(w.book.loans[id], w.now);
  }

  lemma StatusKeepsBalance(w: World, op: Op)
    requires BookOk(w.book) && Step(w, op).Ok? && (op.CallApproveLoan? || op.CallCancelLoan? || op.CallMarkDefaulted?)
    ensures Balance(Step(w, op).value, op.id) == Balance(w, op.id)
  {
    hide FundFromPool, Forfeit, LoanOk;
  }

  /** Without a payment, a call moves a balance only by the fee it charges. */
  lemma ApplyGrows(w: World, op: Op, id: nat)
    requires AllOk(w) && id in w.book.loans && !PaysLoan(op, id)
    ensures id in Apply(w, op).book.loans && 0 <= Balance(w, id)
    ensures Balance(Apply(w, op), id) == Balance(w, id) + Balance(w, id) * DaysOf(w, op, id) / 200
    ensures DaysOf(w, op, id) == 0 ==> Balance(Apply(w, op), id) == Balance(w, id)
  {
    hide Step;
    if Step(w, op).Ok? {
      StepTouchesOne(w, op);
      if op == CallApplyLateFees(id) {
        FeesGrow(w, op, id);
      } else if (op.CallApproveLoan? || op.CallCancelLoan? || op.CallMarkDefaulted?) && op.id == id {
        StatusKeepsBalance(w, op);
      }
    }
  }

  lemma BoundAfter(w: World, op: Op, id: nat, r0: nat, days: nat, k: nat)
    requires AllOk(w) && id in w.book.loans && !PaysLoan(op, id)
    requires LP.GrowthBounded(r0, Balance(w, id), days, k)
    ensures id in Apply(w, op).book.loans
    ensures LP.GrowthBounded(r0, Balance(Apply(w, op), id), days + DaysOf(w, op, id),
                             k + if DaysOf(w, op, id) > 0 then 1 else 0)
  {
    hide LP.GrowthBounded, Apply, DaysOf, AllOk, Balance;
    ApplyGrows(w, op, id);
    if DaysOf(w, op, id) > 0 {
      LP.GrowthStep(r0, Balance(w, id), Balance(Apply(w, op), id), days, DaysOf(w, op, id), k);
    }
  }

  lemma BalanceNonNegative(w: World, id: nat)
    requires AllOk(w) && id in w.book.loans
    ensures 0 <= w.book.loans[id].remaining
  {
  }

  /** The growth bound for every stored loan: over any run in which nobody pays it, D charged days
      and k calls that charged take its balance from R0 to at most R0 * (201/200)^D, and to at
      least R0 + R0 * D / 200 less one unit a call. */
  lemma {:induction false} BalanceGrowthBound(w: World, ops: seq<Op>, id: nat)
    requires AllOk(w) && id in w.book.loans && forall i :: 0 <= i < |ops| ==> !PaysLoan(ops[i], id)
    ensures id in Run(w, ops).book.loans && 0 <= w.book.loans[id].remaining
    ensures LP.GrowthBounded(w.book.loans[id].remaining, Run(w, ops).book.loans[id].remaining,
                             DaysCharged(w, ops, id), ChargingCalls(w, ops, id))
  {
    hide LP.GrowthBounded, Apply, DaysOf, AllOk, PaysLoan;
    BalanceNonNegative(w, id);
    if ops == [] {
      LP.NoGrowthYet(w.book.loans[id].remaining);
    } else {
      var front := ops[..|ops| - 1];
      BalanceGrowthBound(w, front, id);
      RunFollows(w, front);
      BoundAfter(Run(w, front), ops[|ops| - 1], id, w.book.loans[id].remaining,
                 DaysCharged(w, front, id), ChargingCalls(w, front, id));
    }
  }
}
