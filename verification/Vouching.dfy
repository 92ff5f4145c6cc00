/** The vouching contract: the object whose entry points record vouches and move the learners'
    scores in the reputation contract. */
module Vouching {
  import opened Common
  import opened Reputation
  import opened VouchingModel
  import VouchingTheorems

  class VouchingContract {
    const admin: Address
    const reputation: ReputationContract

    var verified: map<Address, bool>
    var boost: nat
    var records: map<(Address, Address), Record>
    var mentors: map<Address, seq<Address>>
    var baselines: map<Address, nat>
    var totals: map<Address, nat>
    var now: nat

    function State(): Ledger
      reads this, reputation
    {
      Ledger(admin, verified, boost, records, mentors, baselines, totals, reputation.scores, now)
    }

    ghost predicate Valid()
      reads this, reputation
    {
      VouchingTheorems.Reachable(State())
    }

    constructor (admin: Address, reputation: ReputationContract, boost: nat, now: nat)
      requires 0 < boost <= U32_MAX && forall a :: a in reputation.scores ==> reputation.scores[a] <= MAX_SCORE
      ensures Valid() && Initial(State()) && this.reputation == reputation
    {
      this.admin, this.reputation, this.boost, this.now := admin, reputation, boost, now;
      verified, records, mentors, baselines, totals := map[], map[], map[], map[], map[];
      new;
      VouchingTheorems.InitialReachable(State());
    }

    method Rollback(v: Ledger)
      requires v.admin == admin
      modifies this, reputation
      ensures State() == v
    {
      verified, boost, records, mentors := v.verified, v.boost, v.records, v.mentors;
      baselines, totals, now := v.baselines, v.totals, v.now;
      reputation.scores := v.scores;
    }

    method SetMentor(caller: Address, mentor: Address, isVerified: bool) returns (r: Result<()>)
      modifies this
      ensures
        var s := VouchingModel.SetMentor(old(State()), caller, mentor, isVerified);
        && r == (if s.Ok? then Ok(()) else Err(s.error))
        && (s.Ok? ==> State() == s.value)
    {
      var _ :- Need(caller == admin, NotAdmin);
      verified := verified[mentor := isVerified];
      r := Ok(());
    }

    /** Appends a mentor to the learner's list, unless it is there. */
    method AddLearnerMentor(learner: Address, mentor: Address)
      modifies `mentors
      ensures
        var listed := GetOr(old(mentors), learner, []);
        mentors == if mentor in listed then old(mentors) else old(mentors)[learner := listed + [mentor]]
    {
      var listed := GetOr(mentors, learner, []);
      if mentor !in listed {
        listed := listed + [mentor];
        mentors := mentors[learner := listed];
      }
    }

    method Vouch(mentor: Address, learner: Address) returns (r: Result<()>)
      modifies this, reputation
      ensures
        var s := VouchingModel.Vouch(old(State()), mentor, learner);
        && r == (if s.Ok? then Ok(()) else Err(s.error))
        && (s.Ok? ==> State() == s.value)
    {
      var _ :- Need(GetOr(verified, mentor, false), MentorNotVerified);
      if (mentor, learner) in records && records[(mentor, learner)].active {
        return Err(VouchAlreadyActive);
      }
      var total := GetOr(totals, learner, 0);
      if total == 0 {
        baselines := baselines[learner := Score(reputation.scores, learner)];
      }
      records := records[(mentor, learner) := Record(mentor, learner, now, boost, true)];
      AddLearnerMentor(learner, mentor);
      var _ :- reputation.Increase(learner, boost);
      var _ :- Need(total + boost <= U32_MAX, Overflow);
      totals := totals[learner := total + boost];
      r := Ok(());
    }

    /** Takes a vouch's boost back, down to the learner's baseline at most. */
    method RemoveBoostClamped(record: Record) returns (r: Result<()>)
      modifies `baselines, `totals, reputation
      ensures
        var s := EndVouch(old(State()), record);
        && r == (if s.Ok? then Ok(()) else Err(s.error))
        && (s.Ok? ==> baselines == s.value.baselines && totals == s.value.totals && reputation.scores == s.value.scores)
    {
      var learner := record.learner;
      var current := Score(reputation.scores, learner);
      var baseline := if learner in baselines then baselines[learner] else current;
      var total := GetOr(totals, learner, 0);
      var removable := Min(if current > baseline then current - baseline else 0, record.boost);
      if removable > 0 {
        var lowered := reputation.Decrease(learner, removable);
        assert lowered.Ok?;
      }
      var newTotal := if total > record.boost then total - record.boost else 0;
      totals := totals[learner := newTotal];
      if newTotal == 0 {
        baselines := baselines - {learner};
      }
      r := Ok(());
    }

    method Revoke(mentor: Address, learner: Address) returns (r: Result<()>)
      requires forall k :: k in records ==> records[k].mentor == k.0 && records[k].learner == k.1
      modifies this, reputation
      ensures
        var s := VouchingModel.Revoke(old(State()), mentor, learner);
        && r == (if s.Ok? then Ok(()) else Err(s.error))
        && (s.Ok? ==> State() == s.value)
    {
      if (mentor, learner) !in records {
        return Err(VouchNotFound);
      }
      var record := records[(mentor, learner)];
      var _ :- Need(record.active, VouchNotActive);
      var _ :- RemoveBoostClamped(record);
      record := record.(active := false);
      records := records[(record.mentor, record.learner) := record];
      r := Ok(());
    }

    /** Anyone may expire a vouch once its time is over; a vouch already ended is left alone. */
    method Expire(mentor: Address, learner: Address) returns (r: Result<()>)
      requires forall k :: k in records ==> records[k].mentor == k.0 && records[k].learner == k.1
      modifies this, reputation
      ensures
        var s := VouchingModel.Expire(old(State()), mentor, learner);
        && r == (if s.Ok? then Ok(()) else Err(s.error))
        && (s.Ok? ==> State() == s.value)
    {
      if (mentor, learner) !in records {
        return Err(VouchNotFound);
      }
      var record := records[(mentor, learner)];
      if !record.active {
        return Ok(());
      }
      var expiry := Min(record.ts + VOUCH_DURATION, U64_MAX);
      var _ :- Need(expiry < now, VouchNotExpired);
      var _ :- RemoveBoostClamped(record);
      record := record.(active := false);
      records := records[(record.mentor, record.learner) := record];
      r := Ok(());
    }

    /** The vouches of a learner; stored ones past their expiry are reported as inactive. */
    method GetVouches(learner: Address) returns (found: seq<Record>)
      ensures found == Listing(State(), learner, MentorsOf(State(), learner))
    {
      var listed := GetOr(mentors, learner, []);
      found := [];
      for i := 0 to |listed|
        invariant found == Listing(State(), learner, listed[..i])
      {
        assert listed[..i + 1][..i] == listed[..i];
        var mentor := listed[i];
        if (mentor, learner) in records {
          var record := records[(mentor, learner)];
          if record.active && Min(record.ts + VOUCH_DURATION, U64_MAX) < now {
            record := record.(active := false);
          }
          found := found + [record];
        }
      }
      assert listed[..|listed|] == listed;
    }

    /** One invocation: an accepted call takes the step, a rejected one leaves no trace. */
    method Invoke(op: Op) returns (r: Result<()>)
      requires Valid()
      modifies this, reputation
      ensures Valid() && State() == Apply(old(State()), op)
      ensures r.Ok? <==> Step(old(State()), op).Ok?
    {
      var before := State();
      VouchingTheorems.ReachableStep(before, op);
      VouchingTheorems.ReachableKeys(before);
      match op {
        case CallSetMentor(caller, mentor, isVerified) => r := SetMentor(caller, mentor, isVerified);
        case CallVouch(mentor, learner) => r := Vouch(mentor, learner);
        case CallRevoke(mentor, learner) => r := Revoke(mentor, learner);
        case CallExpire(mentor, learner) => r := Expire(mentor, learner);
        case Advance(time) =>
          r := if now <= time <= U64_MAX then Ok(()) else Err(ClockReversed);
          if r.Ok? {
            now := time;
          }
        case OutsideScore(user, score) =>
          r := if score <= MAX_SCORE then Ok(()) else Err(OutOfBounds);
          if r.Ok? {
            reputation.scores := reputation.scores[user := score];
          }
        case OutsideBoost(amount) =>
          r := if 0 < amount <= U32_MAX then Ok(()) else Err(InvalidBoost);
          if r.Ok? {
            boost := amount;
          }
      }
      if r.Err? {
        Rollback(before);
      }
    }
  }
}
