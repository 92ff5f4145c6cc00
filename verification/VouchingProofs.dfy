/** The vouching ledger's invariant: totals, baselines and mentor lists agree with the records. */
module VouchingProofs {
  import opened Common
  import opened Reputation
  import opened VouchingModel

  /** What one mentor's vouch for a learner counts for. */
  function Boost(v: Ledger, mentor: Address, learner: Address): nat {
    if (mentor, learner) in v.records && v.records[(mentor, learner)].active
    then v.records[(mentor, learner)].boost
    else 0
  }

  /** The boosts of a learner's active vouches, together. */
  function ActiveBoost(v: Ledger, learner: Address, mentors: seq<Address>): nat {
    if mentors == [] then 0
    else ActiveBoost(v, learner, mentors[..|mentors| - 1]) + Boost(v, mentors[|mentors| - 1], learner)
  }

  /** A learner's list holds exactly the mentors it has a record of, each once; its total is the sum
      of its active boosts; and it has a baseline exactly when that is not zero. */
  ghost predicate LearnerOk(v: Ledger, learner: Address) {
    && Distinct(MentorsOf(v, learner))
    && (forall m: Address :: m in MentorsOf(v, learner) <==> (m, learner) in v.records)
    && Total(v, learner) == ActiveBoost(v, learner, MentorsOf(v, learner))
    && (learner in v.baselines <==> Total(v, learner) > 0)
  }

  ghost predicate LedgerOk(v: Ledger) {
    && v.boost > 0
    && (forall a :: a in v.scores ==> v.scores[a] <= MAX_SCORE)
    && (forall k :: k in v.records ==>
          v.records[k].mentor == k.0 && v.records[k].learner == k.1 && v.records[k].boost > 0)
    && (forall l {:trigger LearnerOk(v, l)} :: LearnerOk(v, l))
  }

  // ---------------------------------------------------------------- sums

  lemma {:induction false} BoostFrame(v: Ledger, v': Ledger, learner: Address, mentors: seq<Address>)
    requires forall m :: m in mentors ==> Boost(v', m, learner) == Boost(v, m, learner)
    ensures ActiveBoost(v', learner, mentors) == ActiveBoost(v, learner, mentors)
  {
    if mentors != [] {
      assert mentors[|mentors| - 1] in mentors;
      forall m | m in mentors[..|mentors| - 1]
        ensures m in mentors
      {
      }
      BoostFrame(v, v', learner, mentors[..|mentors| - 1]);
    }
  }

  /** Changing one mentor's boost changes the sum by as much. */
  lemma {:induction false} BoostReplace(v: Ledger, v': Ledger, learner: Address, mentors: seq<Address>, mentor: Address)
    requires Distinct(mentors) && mentor in mentors
    requires forall m :: m in mentors && m != mentor ==> Boost(v', m, learner) == Boost(v, m, learner)
    ensures ActiveBoost(v', learner, mentors)
         == ActiveBoost(v, learner, mentors) - Boost(v, mentor, learner) + Boost(v', mentor, learner)
    ensures Boost(v, mentor, learner) <= ActiveBoost(v, learner, mentors)
  {
    var last, rest := mentors[|mentors| - 1], mentors[..|mentors| - 1];
    forall m | m in rest
      ensures m in mentors && m != last
    {
    }
    assert last in mentors;
    if last == mentor {
      BoostFrame(v, v', learner, rest);
    } else {
      BoostReplace(v, v', learner, rest, mentor);
    }
  }

  lemma OtherLearner(v: Ledger, v': Ledger, learner: Address, other: Address)
    requires LearnerOk(v, other) && other != learner
    requires MentorsOf(v', other) == MentorsOf(v, other) && Total(v', other) == Total(v, other)
    requires other in v'.baselines <==> other in v.baselines
    requires forall m: Address :: (m, other) in v'.records <==> (m, other) in v.records
    requires forall m: Address :: (m, other) in v.records ==> v'.records[(m, other)] == v.records[(m, other)]
    ensures LearnerOk(v', other)
  {
    BoostFrame(v, v', other, MentorsOf(v, other));
  }

  // ---------------------------------------------------------------- steps keep the invariant

  /** What an accepted vouch writes. */
  ghost predicate Vouched(v: Ledger, v': Ledger, mentor: Address, learner: Address) {
    && Boost(v, mentor, learner) == 0
    && v'.records == v.records[(mentor, learner) := Record(mentor, learner, v.now, v.boost, true)]
    && MentorsOf(v', learner) == MentorsOf(v, learner) + (if mentor in MentorsOf(v, learner) then [] else [mentor])
    && Total(v', learner) == Total(v, learner) + v.boost
    && (learner in v'.baselines <==> Total(v, learner) == 0 || learner in v.baselines)
  }

  lemma VouchWrites(v: Ledger, mentor: Address, learner: Address)
    requires Vouch(v, mentor, learner).Ok?
    ensures Vouched(v, Vouch(v, mentor, learner).value, mentor, learner)
  {
  }

  /** The vouched learner's total, whether its mentor is listed already or is appended now. */
  lemma VouchTotal(v: Ledger, v': Ledger, mentor: Address, learner: Address)
    requires LearnerOk(v, learner) && Vouched(v, v', mentor, learner)
    ensures Distinct(MentorsOf(v', learner))
    ensures ActiveBoost(v', learner, MentorsOf(v', learner)) == Total(v, learner) + v.boost
  {
    var before, after := MentorsOf(v, learner), MentorsOf(v', learner);
    if mentor in before {
      assert after == before;
      BoostReplace(v, v', learner, before, mentor);
    } else {
      assert after[..|before|] == before;
      BoostFrame(v, v', learner, before);
    }
  }

  lemma VouchedLearner(v: Ledger, v': Ledger, mentor: Address, learner: Address)
    requires v.boost > 0 && LearnerOk(v, learner) && Vouched(v, v', mentor, learner)
    ensures LearnerOk(v', learner)
  {
    VouchTotal(v, v', mentor, learner);
  }

  lemma VouchKeeps(v: Ledger, mentor: Address, learner: Address)
    requires LedgerOk(v) && Vouch(v, mentor, learner).Ok?
    ensures LedgerOk(Vouch(v, mentor, learner).value)
  {
    var v' := Vouch(v, mentor, learner).value;
    VouchWrites(v, mentor, learner);
    forall l
      ensures LearnerOk(v', l)
    {
      assert LearnerOk(v, l);
      if l == learner {
        VouchedLearner(v, v', mentor, learner);
      } else {
        OtherLearner(v, v', learner, l);
      }
    }
  }

  lemma EndedLearner(v: Ledger, mentor: Address, learner: Address)
    requires LearnerOk(v, learner) && (mentor, learner) in v.records
    requires
      var r := v.records[(mentor, learner)];
      r.active && r.boost > 0 && r.mentor == mentor && r.learner == learner && EndVouch(v, r).Ok?
    ensures
      var v' := EndVouch(v, v.records[(mentor, learner)]).value;
      && LearnerOk(v', learner) && v.records[(mentor, learner)].boost <= Total(v, learner)
      && Total(v', learner) == Total(v, learner) - v.records[(mentor, learner)].boost
  {
    BoostReplace(v, EndVouch(v, v.records[(mentor, learner)]).value, learner, MentorsOf(v, learner), mentor);
  }

  /** Ending an active vouch is never refused. */
  lemma EndVouchKeeps(v: Ledger, mentor: Address, learner: Address)
    requires LedgerOk(v) && (mentor, learner) in v.records && v.records[(mentor, learner)].active
    ensures EndVouch(v, v.records[(mentor, learner)]).Ok?
    ensures LedgerOk(EndVouch(v, v.records[(mentor, learner)]).value)
    ensures Total(EndVouch(v, v.records[(mentor, learner)]).value, learner)
         == Total(v, learner) - v.records[(mentor, learner)].boost
  {
    hide LearnerOk;
    var v' := EndVouch(v, v.records[(mentor, learner)]).value;
    assert LearnerOk(v, learner);
    EndedLearner(v, mentor, learner);
    forall l
      ensures LearnerOk(v', l)
    {
      assert LearnerOk(v, l);
      if l != learner {
        OtherLearner(v, v', learner, l);
      }
    }
  }

  lemma ScoreOnlyKeeps(v: Ledger, v': Ledger)
    requires LedgerOk(v)
    requires v'.records == v.records && v'.mentors == v.mentors && v'.baselines == v.baselines && v'.totals == v.totals
    requires v'.boost > 0 && forall a :: a in v'.scores ==> v'.scores[a] <= MAX_SCORE
    ensures LedgerOk(v')
  {
    forall l
      ensures LearnerOk(v', l)
    {
      assert LearnerOk(v, l);
      BoostFrame(v, v', l, MentorsOf(v, l));
    }
  }

  lemma StepKeeps(v: Ledger, op: Op)
    requires LedgerOk(v) && Step(v, op).Ok?
    ensures LedgerOk(Step(v, op).value)
  {
    match op
    case CallVouch(mentor, learner) => VouchKeeps(v, mentor, learner);
    case CallRevoke(mentor, learner) => EndVouchKeeps(v, mentor, learner);
    case CallExpire(mentor, learner) =>
      if v.records[(mentor, learner)].active {
        EndVouchKeeps(v, mentor, learner);
      }
    case _ => ScoreOnlyKeeps(v, Step(v, op).value);
  }

  lemma InitialOk(v: Ledger)
    requires Initial(v)
    ensures LedgerOk(v)
  {
    forall l
      ensures LearnerOk(v, l)
    {
    }
  }
}
