/** The vouching ledger over every run: accounting is exact and does not depend on the order in
    which vouches end. */
module VouchingTheorems {
  import opened Common
  import opened Reputation
  import opened VouchingModel
  import opened VouchingProofs

  lemma {:induction false} RunKeeps(v: Ledger, ops: seq<Op>)
    requires LedgerOk(v)
    ensures LedgerOk(Run(v, ops))
  {
    if ops != [] {
      var before, op := Run(v, ops[..|ops| - 1]), ops[|ops| - 1];
      RunKeeps(v, ops[..|ops| - 1]);
      if Step(before, op).Ok? {
        StepKeeps(before, op);
      }
    }
  }

  ghost predicate Reachable(v: Ledger) {
    exists v0: Ledger, ops: seq<Op> :: Initial(v0) && v == Run(v0, ops)
  }

  lemma ReachableOk(v: Ledger)
    requires Reachable(v)
    ensures LedgerOk(v)
  {
    var v0: Ledger, ops: seq<Op> :| Initial(v0) && v == Run(v0, ops);
    InitialOk(v0);
    RunKeeps(v0, ops);
  }

  /** Records are stored under the parties they name. */
  lemma ReachableKeys(v: Ledger)
    requires Reachable(v)
    ensures forall k :: k in v.records ==> v.records[k].mentor == k.0 && v.records[k].learner == k.1
  {
    ReachableOk(v);
  }

  lemma InitialReachable(v: Ledger)
    requires Initial(v)
    ensures Reachable(v)
  {
    assert v == Run(v, []);
  }

  lemma ReachableStep(v: Ledger, op: Op)
    requires Reachable(v)
    ensures Reachable(Apply(v, op))
  {
    var v0: Ledger, ops: seq<Op> :| Initial(v0) && v == Run(v0, ops);
    assert (ops + [op])[..|ops|] == ops;
    assert Run(v0, ops + [op]) == Apply(v, op);
  }

  // ---------------------------------------------------------------- exact accounting

  predicate Active(v: Ledger, mentor: Address, learner: Address) {
    (mentor, learner) in v.records && v.records[(mentor, learner)].active
  }

  lemma {:induction false} SomeBoost(v: Ledger, learner: Address, mentors: seq<Address>)
    requires forall m :: Active(v, m, learner) ==> v.records[(m, learner)].boost > 0
    ensures ActiveBoost(v, learner, mentors) > 0 <==> exists m :: m in mentors && Active(v, m, learner)
  {
    if mentors != [] {
      var rest, last := mentors[..|mentors| - 1], mentors[|mentors| - 1];
      SomeBoost(v, learner, rest);
      assert mentors == rest + [last];
      assert Boost(v, last, learner) > 0 <==> Active(v, last, learner);
    }
  }

  /** A learner's total is the sum of its active boosts over the mentors it has records of, each
      counted once; it has a baseline exactly when some vouch is active. */
  lemma AccountingIsExact(v: Ledger, learner: Address)
    requires Reachable(v)
    ensures Distinct(MentorsOf(v, learner))
    ensures forall m: Address :: m in MentorsOf(v, learner) <==> (m, learner) in v.records
    ensures Total(v, learner) == ActiveBoost(v, learner, MentorsOf(v, learner))
    ensures learner in v.baselines <==> exists m :: Active(v, m, learner)
  {
    ReachableOk(v);
    assert LearnerOk(v, learner);
    SomeBoost(v, learner, MentorsOf(v, learner));
    forall m | Active(v, m, learner)
      ensures m in MentorsOf(v, learner)
    {
    }
  }

  /** Only vouches have moved the score since the learner's first active vouch. */
  predicate Exact(v: Ledger, learner: Address) {
    Score(v.scores, learner) == Baseline(v, learner) + Total(v, learner)
  }

  predicate LeavesScore(op: Op, learner: Address) {
    op.OutsideScore? ==> op.user != learner
  }

  lemma EndVouchStaysExact(v: Ledger, mentor: Address, learner: Address, other: Address)
    requires LedgerOk(v) && Exact(v, other) && Active(v, mentor, learner)
    ensures
      var v' := EndVouch(v, v.records[(mentor, learner)]).value;
      Exact(v', other) && Baseline(v', other) == Baseline(v, other)
  {
    assert LearnerOk(v, learner);
    EndVouchKeeps(v, mentor, learner);
  }

  lemma StepStaysExact(v: Ledger, op: Op, learner: Address)
    requires LedgerOk(v) && Exact(v, learner) && LeavesScore(op, learner)
    ensures Exact(Apply(v, op), learner) && Baseline(Apply(v, op), learner) == Baseline(v, learner)
  {
    assert LearnerOk(v, learner);
    if Step(v, op).Ok? {
      if op.CallRevoke? || (op.CallExpire? && v.records[(op.mentor, op.learner)].active) {
        EndVouchStaysExact(v, op.mentor, op.learner, learner);
      }
    }
  }

  /** While only vouches change a learner's score, it is the baseline plus the total, and the
      baseline does not move. */
  lemma {:induction false} ScoreIsBaselinePlusTotal(v: Ledger, ops: seq<Op>, learner: Address)
    requires LedgerOk(v) && Exact(v, learner)
    requires forall i :: 0 <= i < |ops| ==> LeavesScore(ops[i], learner)
    ensures Exact(Run(v, ops), learner) && Baseline(Run(v, ops), learner) == Baseline(v, learner)
  {
    if ops != [] {
      ScoreIsBaselinePlusTotal(v, ops[..|ops| - 1], learner);
      RunKeeps(v, ops[..|ops| - 1]);
      StepStaysExact(Run(v, ops[..|ops| - 1]), ops[|ops| - 1], learner);
    }
  }

  /** However vouches come and go in between, a learner whose last vouch has ended has the score it
      had before the first one. */
  lemma EndingAllRestoresTheScore(v: Ledger, ops: seq<Op>, learner: Address)
    requires Reachable(v) && (forall m :: !Active(v, m, learner))
    requires forall i :: 0 <= i < |ops| ==> LeavesScore(ops[i], learner)
    requires forall m :: !Active(Run(v, ops), m, learner)
    ensures Score(Run(v, ops).scores, learner) == Score(v.scores, learner)
  {
    ReachableOk(v);
    RunKeeps(v, ops);
    var v' := Run(v, ops);
    assert LearnerOk(v, learner) && LearnerOk(v', learner);
    SomeBoost(v, learner, MentorsOf(v, learner));
    SomeBoost(v', learner, MentorsOf(v', learner));
    ScoreIsBaselinePlusTotal(v, ops, learner);
  }

  // ---------------------------------------------------------------- acceptance

  predicate Verified(v: Ledger, mentor: Address) {
    mentor in v.verified && v.verified[mentor]
  }

  /** A vouch is accepted exactly from a verified mentor who is not vouching for the learner yet,
      if the boost keeps the score within 100 and the active boosts together within 32 bits. It
      records the boost and the moment and raises this score alone. */
  lemma VouchAcceptedIff(v: Ledger, mentor: Address, learner: Address, other: Address)
    requires Reachable(v)
    ensures Vouch(v, mentor, learner).Ok?
       <==> && Verified(v, mentor) && !Active(v, mentor, learner)
            && Score(v.scores, learner) + v.boost <= 100
            && ActiveBoost(v, learner, MentorsOf(v, learner)) + v.boost <= 4_294_967_295
    ensures Vouch(v, mentor, learner).Ok? ==>
              var v' := Vouch(v, mentor, learner).value;
              && v'.records == v.records[(mentor, learner) := Record(mentor, learner, v.now, v.boost, true)]
              && Score(v'.scores, other) == Score(v.scores, other) + (if other == learner then v.boost else 0)
  {
    ReachableOk(v);
    assert LearnerOk(v, learner);
  }

  /** A revocation is accepted exactly while the vouch is active, an expiry of a known vouch exactly
      if it is not active or thirty days old. */
  lemma EndingAcceptedIff(v: Ledger, mentor: Address, learner: Address)
    requires Reachable(v) && v.now <= U64_MAX
    ensures Revoke(v, mentor, learner).Ok? <==> Active(v, mentor, learner)
    ensures Expire(v, mentor, learner).Ok?
       <==> && (mentor, learner) in v.records
            && (Active(v, mentor, learner) ==> v.records[(mentor, learner)].ts + 2_592_000 < v.now)
  {
    ReachableOk(v);
    if Active(v, mentor, learner) {
      EndVouchKeeps(v, mentor, learner);
    }
  }

  /** What the administrator last said about a mentor in a run, else `before`. */
  function LastSaid(admin: Address, ops: seq<Op>, mentor: Address, before: bool): bool {
    if ops == [] then before
    else
      var last := ops[|ops| - 1];
      if last.CallSetMentor? && last.caller == admin && last.mentor == mentor then last.verified
      else LastSaid(admin, ops[..|ops| - 1], mentor, before)
  }

  lemma OthersVerifyNobody(v: Ledger, op: Op)
    requires !op.CallSetMentor?
    ensures Apply(v, op).admin == v.admin && Apply(v, op).verified == v.verified
  {
    hide Expiry, MentorsOf, Removable, IncreaseScore, DecreaseScore, Total;
  }

  lemma SettingVerifies(v: Ledger, op: Op, mentor: Address)
    requires op.CallSetMentor?
    ensures Apply(v, op).admin == v.admin
    ensures Verified(Apply(v, op), mentor)
         == if op.caller == v.admin && op.mentor == mentor then op.verified else Verified(v, mentor)
  {
  }

  /** A mentor is verified exactly as the administrator last said; nobody else has a say. */
  lemma {:induction false} AdministratorDecidesOnMentors(v: Ledger, ops: seq<Op>, mentor: Address)
    ensures Run(v, ops).admin == v.admin
    ensures Verified(Run(v, ops), mentor) == LastSaid(v.admin, ops, mentor, Verified(v, mentor))
  {
    hide Apply;
    if ops != [] {
      var front, op := ops[..|ops| - 1], ops[|ops| - 1];
      AdministratorDecidesOnMentors(v, front, mentor);
      if op.CallSetMentor? {
        SettingVerifies(Run(v, front), op, mentor);
      } else {
        OthersVerifyNobody(Run(v, front), op);
      }
    }
  }

  // ---------------------------------------------------------------- order of removal

  /** The mentors `ms` revoke their vouches for `learner`, in turn. */
  function RevokeAll(learner: Address, ms: seq<Address>): seq<Op> {
    if ms == [] then [] else RevokeAll(learner, ms[..|ms| - 1]) + [CallRevoke(ms[|ms| - 1], learner)]
  }

  function Ended(v: Ledger, learner: Address, ms: seq<Address>): map<(Address, Address), Record> {
    map k | k in v.records ::
      if k.1 == learner && k.0 in ms then v.records[k].(active := false) else v.records[k]
  }

  /** What a score becomes when boosts worth `worth` are taken back above a floor. */
  function Lowered(score: int, baseline: int, worth: int): int {
    if score <= baseline then score else Max(baseline, score - worth)
  }

  /** Of the total, what the vouches other than those of `ms` still contribute. */
  function Left(v: Ledger, learner: Address, ms: seq<Address>): nat {
    ActiveBoost(v.(records := Ended(v, learner, ms)), learner, MentorsOf(v, learner))
  }

  /** The score once the vouches `ms` have ended. */
  function ScoreAfter(v: Ledger, learner: Address, ms: seq<Address>): int {
    Lowered(Score(v.scores, learner), Baseline(v, learner), Total(v, learner) - Left(v, learner, ms))
  }

  /** The state once the vouches `ms` have ended. It only depends on which vouches they are. */
  ghost predicate EndedAll(v: Ledger, v': Ledger, learner: Address, ms: seq<Address>) {
    && v'.records == Ended(v, learner, ms)
    && v'.totals == (if ms == [] then v.totals else v.totals[learner := Left(v, learner, ms)])
    && v'.baselines == (if Left(v, learner, ms) == 0 then v.baselines - {learner} else v.baselines)
    && Left(v, learner, ms) <= Total(v, learner) && ScoreAfter(v, learner, ms) >= 0
    && v'.scores == (if ScoreAfter(v, learner, ms) == Score(v.scores, learner) then v.scores
                     else v.scores[learner := ScoreAfter(v, learner, ms)])
    && v' == v.(records := v'.records, totals := v'.totals, baselines := v'.baselines, scores := v'.scores)
  }

  lemma NoneEnded(v: Ledger, learner: Address)
    requires LedgerOk(v)
    ensures EndedAll(v, v, learner, [])
  {
    assert LearnerOk(v, learner);
    assert Ended(v, learner, []) == v.records;
    assert v.(records := v.records) == v;
    if Total(v, learner) == 0 {
      assert v.baselines - {learner} == v.baselines;
    }
  }

  lemma TotalIsLeft(v: Ledger, v': Ledger, learner: Address, ms: seq<Address>)
    requires LearnerOk(v', learner) && v'.records == Ended(v, learner, ms) && v'.mentors == v.mentors
    ensures Total(v', learner) == Left(v, learner, ms)
  {
    BoostFrame(v.(records := Ended(v, learner, ms)), v', learner, MentorsOf(v, learner));
  }

  lemma LoweredTwice(score: int, baseline: int, first: int, second: int)
    requires first >= 0 && second >= 0
    ensures Lowered(Lowered(score, baseline, first), baseline, second) == Lowered(score, baseline, first + second)
  {
  }

  lemma EndedMore(v: Ledger, learner: Address, rest: seq<Address>, last: Address)
    requires Active(v, last, learner) && last !in rest
    requires v.records[(last, learner)].mentor == last && v.records[(last, learner)].learner == learner
    ensures Active(v.(records := Ended(v, learner, rest)), last, learner)
    ensures Ended(v, learner, rest)[(last, learner)] == v.records[(last, learner)]
    ensures Ended(v, learner, rest)[(last, learner) := v.records[(last, learner)].(active := false)]
         == Ended(v, learner, rest + [last])
  {
  }

  /** `v'` is `v` with the vouch of `mentor` ended. */
  predicate EndedOne(v: Ledger, v': Ledger, learner: Address, mentor: Address)
    requires (mentor, learner) in v.records
  {
    var r := v.records[(mentor, learner)];
    var after := Lowered(Score(v.scores, learner), Baseline(v, learner), r.boost);
    && r.boost <= Total(v, learner) && after >= 0
    && v' == v.(records := v.records[(mentor, learner) := r.(active := false)],
                totals := v.totals[learner := Total(v, learner) - r.boost],
                baselines := if Total(v, learner) == r.boost then v.baselines - {learner} else v.baselines,
                scores := if after == Score(v.scores, learner) then v.scores else v.scores[learner := after])
  }

  lemma RevokeEndsOne(v: Ledger, mentor: Address, learner: Address)
    requires LedgerOk(v) && Active(v, mentor, learner)
    ensures Revoke(v, mentor, learner).Ok? && LedgerOk(Revoke(v, mentor, learner).value)
    ensures EndedOne(v, Revoke(v, mentor, learner).value, learner, mentor)
  {
    EndVouchKeeps(v, mentor, learner);
  }

  /** Totals on the way are what is left of the first one, and the shared baseline is still there. */
  lemma LeftOnTheWay(v: Ledger, v1: Ledger, learner: Address, rest: seq<Address>, last: Address)
    requires LedgerOk(v) && LedgerOk(v1) && EndedAll(v, v1, learner, rest)
    requires last !in rest && Active(v, last, learner)
    ensures Active(v1, last, learner) && v1.records[(last, learner)] == v.records[(last, learner)]
    ensures Total(v1, learner) == Left(v, learner, rest) > 0
    ensures v1.baselines == v.baselines && Baseline(v1, learner) == Baseline(v, learner)
  {
    EndedMore(v, learner, rest, last);
    assert LearnerOk(v, learner) && LearnerOk(v1, learner);
    TotalIsLeft(v, v1, learner, rest);
    SomeBoost(v1, learner, MentorsOf(v1, learner));
  }

  lemma EndedAllAndOne(v: Ledger, v1: Ledger, v2: Ledger, learner: Address, rest: seq<Address>, last: Address)
    requires EndedAll(v, v1, learner, rest) && (last, learner) in v1.records && EndedOne(v1, v2, learner, last)
    requires v2.records == Ended(v, learner, rest + [last])
    requires Total(v1, learner) == Left(v, learner, rest) && Total(v2, learner) == Left(v, learner, rest + [last])
    requires v1.baselines == v.baselines && Baseline(v1, learner) == Baseline(v, learner)
    ensures EndedAll(v, v2, learner, rest + [last])
  {
    LoweredTwice(Score(v.scores, learner), Baseline(v, learner), Total(v, learner) - Total(v1, learner),
                 v1.records[(last, learner)].boost);
  }

  /** One more ending after those of `rest`. */
  lemma OneMoreEnded(v: Ledger, v1: Ledger, learner: Address, rest: seq<Address>, last: Address)
    requires LedgerOk(v) && LedgerOk(v1) && EndedAll(v, v1, learner, rest)
    requires last !in rest && Active(v, last, learner)
    ensures Revoke(v1, last, learner).Ok? && EndedAll(v, Revoke(v1, last, learner).value, learner, rest + [last])
    ensures LedgerOk(Revoke(v1, last, learner).value)
  {
    LeftOnTheWay(v, v1, learner, rest, last);
    EndedMore(v, learner, rest, last);
    RevokeEndsOne(v1, last, learner);
    var v2 := Revoke(v1, last, learner).value;
    assert LearnerOk(v2, learner);
    TotalIsLeft(v, v2, learner, rest + [last]);
    EndedAllAndOne(v, v1, v2, learner, rest, last);
  }

  lemma RevokeAllStep(v: Ledger, learner: Address, rest: seq<Address>, last: Address)
    requires Revoke(Run(v, RevokeAll(learner, rest)), last, learner).Ok?
    ensures Run(v, RevokeAll(learner, rest + [last])) == Revoke(Run(v, RevokeAll(learner, rest)), last, learner).value
  {
    assert (rest + [last])[..|rest|] == rest;
    var ops := RevokeAll(learner, rest + [last]);
    assert ops[..|ops| - 1] == RevokeAll(learner, rest) && ops[|ops| - 1] == CallRevoke(last, learner);
  }

  /** Ending any set of active vouches is never refused, and leaves a state that only depends on
      the set: exactly those records inactive, exactly their boosts off the total, the baseline
      gone with the last of them, and the score lowered by their worth but not below the baseline. */
  lemma {:induction false} EndingsAddUp(v: Ledger, learner: Address, ms: seq<Address>)
    requires LedgerOk(v) && Distinct(ms) && forall m :: m in ms ==> Active(v, m, learner)
    ensures LedgerOk(Run(v, RevokeAll(learner, ms))) && EndedAll(v, Run(v, RevokeAll(learner, ms)), learner, ms)
  {
    if ms == [] {
      NoneEnded(v, learner);
    } else {
      var rest, last := ms[..|ms| - 1], ms[|ms| - 1];
      assert ms == rest + [last] && last in ms;
      EndingsAddUp(v, learner, rest);
      OneMoreEnded(v, Run(v, RevokeAll(learner, rest)), learner, rest, last);
      RevokeAllStep(v, learner, rest, last);
    }
  }

  lemma EndedAllIsOneState(v: Ledger, a: Ledger, b: Ledger, learner: Address, ms: seq<Address>, others: seq<Address>)
    requires EndedAll(v, a, learner, ms) && EndedAll(v, b, learner, others)
    requires forall m :: m in ms <==> m in others
    ensures a == b
  {
    assert Ended(v, learner, ms) == Ended(v, learner, others);
    assert ms == [] <==> others == [] by {
      assert ms != [] ==> ms[0] in others;
      assert others != [] ==> others[0] in ms;
    }
  }

  lemma RevokingIsOrderIndependent(v: Ledger, learner: Address, ms: seq<Address>, others: seq<Address>)
    requires Reachable(v) && Distinct(ms) && Distinct(others)
    requires forall m :: m in ms ==> Active(v, m, learner)
    requires forall m :: m in ms <==> m in others
    ensures Run(v, RevokeAll(learner, ms)) == Run(v, RevokeAll(learner, others))
  {
    ReachableOk(v);
    var a, b := Run(v, RevokeAll(learner, ms)), Run(v, RevokeAll(learner, others));
    assert EndedAll(v, a, learner, ms) by { EndingsAddUp(v, learner, ms); }
    assert EndedAll(v, b, learner, others) by { EndingsAddUp(v, learner, others); }
    EndedAllIsOneState(v, a, b, learner, ms, others);
  }

  /** An expiry that is accepted on an active vouch ends it as a revocation would. */
  lemma ExpiryEndsLikeRevocation(v: Ledger, mentor: Address, learner: Address)
    requires Active(v, mentor, learner)
    ensures Expiry(v.records[(mentor, learner)]) < v.now ==> Expire(v, mentor, learner) == Revoke(v, mentor, learner)
    ensures Expiry(v.records[(mentor, learner)]) >= v.now ==> Expire(v, mentor, learner) == Err(VouchNotExpired)
  {
  }

  /** `op` ends the vouch of `mentor`: its revocation, or an expiry whose time has come. */
  predicate Ends(v: Ledger, op: Op, mentor: Address, learner: Address) {
    || op == CallRevoke(mentor, learner)
    || (op == CallExpire(mentor, learner) && (mentor, learner) in v.records
        && Expiry(v.records[(mentor, learner)]) < v.now)
  }

  /** The calls `ops` end the vouches of `ms`, in that order. */
  predicate EndsEach(v: Ledger, ops: seq<Op>, ms: seq<Address>, learner: Address) {
    |ops| == |ms| && forall i :: 0 <= i < |ops| ==> Ends(v, ops[i], ms[i], learner)
  }

  /** Revocations and expiries mix freely. */
  lemma {:induction false} EndsLikeRevocations(v: Ledger, learner: Address, ops: seq<Op>, ms: seq<Address>)
    requires LedgerOk(v) && Distinct(ms) && (forall m :: m in ms ==> Active(v, m, learner))
    requires EndsEach(v, ops, ms, learner)
    ensures Run(v, ops) == Run(v, RevokeAll(learner, ms))
  {
    hide LedgerOk, EndedAll;
    if ms != [] {
      var rest, last := ms[..|ms| - 1], ms[|ms| - 1];
      assert ms == rest + [last] && last in ms;
      EndsLikeRevocations(v, learner, ops[..|ops| - 1], rest);
      EndsLikeRevocation(v, learner, rest, ops[|ops| - 1], last);
    }
  }

  lemma EndsLikeRevocation(v: Ledger, learner: Address, rest: seq<Address>, op: Op, last: Address)
    requires LedgerOk(v) && Distinct(rest) && (forall m :: m in rest ==> Active(v, m, learner))
    requires last !in rest && Active(v, last, learner) && Ends(v, op, last, learner)
    ensures Apply(Run(v, RevokeAll(learner, rest)), op) == Run(v, RevokeAll(learner, rest + [last]))
  {
    var b := Run(v, RevokeAll(learner, rest));
    EndingsAddUp(v, learner, rest);
    EndedMore(v, learner, rest, last);
    OneMoreEnded(v, b, learner, rest, last);
    ExpiryEndsLikeRevocation(b, last, learner);
    RevokeAllStep(v, learner, rest, last);
  }

  /** The order in which the vouches of a set end, and whether by revocation or by expiry, makes no
      difference to anything. */
  lemma EndingIsOrderIndependent(v: Ledger, learner: Address, ms: seq<Address>, ops: seq<Op>,
                                 others: seq<Address>, otherOps: seq<Op>)
    requires Reachable(v) && Distinct(ms) && Distinct(others)
    requires forall m :: m in ms ==> Active(v, m, learner)
    requires forall m :: m in ms <==> m in others
    requires EndsEach(v, ops, ms, learner) && EndsEach(v, otherOps, others, learner)
    ensures Run(v, ops) == Run(v, otherOps)
  {
    hide EndsEach;
    ReachableOk(v);
    EndsLikeRevocations(v, learner, ops, ms);
    EndsLikeRevocations(v, learner, otherOps, others);
    RevokingIsOrderIndependent(v, learner, ms, others);
  }

  /** Taking boosts back never pushes a score below its baseline, or any lower where penalties
      already did. */
  lemma EndingKeepsTheFloor(v: Ledger, learner: Address, ms: seq<Address>)
    requires Reachable(v) && Distinct(ms) && forall m :: m in ms ==> Active(v, m, learner)
    ensures
      var before, after := Score(v.scores, learner), Score(Run(v, RevokeAll(learner, ms)).scores, learner);
      Min(before, Baseline(v, learner)) <= after <= before
  {
    ReachableOk(v);
    EndingsAddUp(v, learner, ms);
  }

  // ---------------------------------------------------------------- how long a vouch lasts

  lemma StepKeepsVouch(v: Ledger, op: Op, mentor: Address, learner: Address)
    requires LedgerOk(v) && Active(v, mentor, learner) && op != CallRevoke(mentor, learner)
    requires Apply(v, op).now <= Expiry(v.records[(mentor, learner)])
    ensures v.now <= Apply(v, op).now
    ensures Active(Apply(v, op), mentor, learner)
    ensures Apply(v, op).records[(mentor, learner)] == v.records[(mentor, learner)]
  {
  }

  lemma ClockOnlyAdvances(v: Ledger, op: Op)
    ensures v.now <= Apply(v, op).now
  {
  }

  /** Unless its mentor revokes it, a vouch stays as it is until its expiry has passed, ... */
  lemma {:induction false} VouchLasts(v: Ledger, ops: seq<Op>, mentor: Address, learner: Address)
    requires LedgerOk(v) && Active(v, mentor, learner)
    requires forall i :: 0 <= i < |ops| ==> ops[i] != CallRevoke(mentor, learner)
    requires Run(v, ops).now <= Expiry(v.records[(mentor, learner)])
    ensures Active(Run(v, ops), mentor, learner)
    ensures Run(v, ops).records[(mentor, learner)] == v.records[(mentor, learner)]
  {
    if ops != [] {
      var front, op := ops[..|ops| - 1], ops[|ops| - 1];
      ClockOnlyAdvances(Run(v, front), op);
      VouchLasts(v, front, mentor, learner);
      RunKeeps(v, front);
      StepKeepsVouch(Run(v, front), op, mentor, learner);
    }
  }

  /** ... thirty days after it was given; from then on anybody can end it. */
  lemma VouchLastsThirtyDays(v: Ledger, mentor: Address, learner: Address, ops: seq<Op>)
    requires Reachable(v) && Vouch(v, mentor, learner).Ok?
    requires forall i :: 0 <= i < |ops| ==> ops[i] != CallRevoke(mentor, learner)
    ensures
      var v' := Run(Vouch(v, mentor, learner).value, ops);
      var given := Record(mentor, learner, v.now, v.boost, true);
      && (v'.now <= Min(v.now + 2_592_000, U64_MAX) ==>
            (mentor, learner) in v'.records && v'.records[(mentor, learner)] == given
            && Expire(v', mentor, learner) == Err(VouchNotExpired))
      && (v'.now > Min(v.now + 2_592_000, U64_MAX) && (mentor, learner) in v'.records
          && v'.records[(mentor, learner)] == given ==>
            Expire(v', mentor, learner).Ok? && !Active(Expire(v', mentor, learner).value, mentor, learner))
  {
    ReachableOk(v);
    VouchKeeps(v, mentor, learner);
    var v1 := Vouch(v, mentor, learner).value;
    RunKeeps(v1, ops);
    var v' := Run(v1, ops);
    if v'.now <= Min(v.now + 2_592_000, U64_MAX) {
      VouchLasts(v1, ops, mentor, learner);
    } else if Active(v', mentor, learner) {
      EndVouchKeeps(v', mentor, learner);
    }
  }

  // ---------------------------------------------------------------- listing

  lemma {:induction false} ListingShows(v: Ledger, learner: Address, mentors: seq<Address>)
    requires forall m :: m in mentors ==> (m, learner) in v.records
    ensures |Listing(v, learner, mentors)| == |mentors|
    ensures forall i :: 0 <= i < |mentors| ==>
              Listing(v, learner, mentors)[i] == Shown(v.records[(mentors[i], learner)], v.now)
  {
    if mentors != [] {
      var rest := mentors[..|mentors| - 1];
      assert forall m :: m in rest ==> m in mentors;
      assert mentors[|mentors| - 1] in mentors;
      ListingShows(v, learner, rest);
      forall i | 0 <= i < |mentors|
        ensures Listing(v, learner, mentors)[i] == Shown(v.records[(mentors[i], learner)], v.now)
      {
        if i < |rest| {
          assert rest[i] == mentors[i];
        }
      }
    }
  }

  /** Readers see the vouch of every mentor that ever vouched for the learner, exactly once, and as
      active exactly when it is active and nobody could expire it now. */
  lemma ListingIsComplete(v: Ledger, learner: Address)
    requires Reachable(v)
    ensures
      var mentors, listing := MentorsOf(v, learner), Listing(v, learner, MentorsOf(v, learner));
      && |listing| == |mentors| && Distinct(mentors)
      && (forall m: Address :: m in mentors <==> (m, learner) in v.records)
      && (forall i :: 0 <= i < |mentors| ==>
            && (mentors[i], learner) in v.records
            && listing[i] == v.records[(mentors[i], learner)].(active := listing[i].active)
            && (listing[i].active <==> Expire(v, mentors[i], learner) == Err(VouchNotExpired)))
  {
    ReachableOk(v);
    assert LearnerOk(v, learner);
    ListingShows(v, learner, MentorsOf(v, learner));
    forall i | 0 <= i < |MentorsOf(v, learner)|
      ensures (MentorsOf(v, learner)[i], learner) in v.records
    {
      assert MentorsOf(v, learner)[i] in MentorsOf(v, learner);
    }
  }

  /** Mentors are listed in the order of their first vouch: the list only ever grows at its end. */
  lemma {:induction false} ListOnlyGrows(v: Ledger, ops: seq<Op>, learner: Address)
    ensures MentorsOf(v, learner) <= MentorsOf(Run(v, ops), learner)
  {
    if ops != [] {
      ListOnlyGrows(v, ops[..|ops| - 1], learner);
      StepOnlyAppends(Run(v, ops[..|ops| - 1]), ops[|ops| - 1], learner);
    }
  }

  lemma StepOnlyAppends(v: Ledger, op: Op, learner: Address)
    ensures MentorsOf(v, learner) <= MentorsOf(Apply(v, op), learner)
  {
  }

  // ---------------------------------------------------------------- refusals

  /** Whatever error a call returns, what it says is the case. */
  lemma ErrorsAreTrue(v: Ledger, op: Op)
    requires Step(v, op).Err? && (op.CallVouch? || op.CallRevoke? || op.CallExpire?)
    ensures
      var known := (op.mentor, op.learner) in v.records;
      match Step(v, op).error
      case MentorNotVerified => op.mentor !in v.verified || !v.verified[op.mentor]
      case VouchAlreadyActive => known && v.records[(op.mentor, op.learner)].active
      case VouchNotFound => !known
      case VouchNotActive => known && !v.records[(op.mentor, op.learner)].active
      case VouchNotExpired => known && v.now <= v.records[(op.mentor, op.learner)].ts + 2_592_000
      case ReputationCallFailed => op.CallVouch? && Score(v.scores, op.learner) + v.boost > 100
      case e => e == Overflow
  {
  }
}
