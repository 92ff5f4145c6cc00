/** Mentors vouching for learners: every active vouch lifts the learner's score by the boost then
    configured, until it is revoked or expires. One accepted call is one step. */
module VouchingModel {
  import opened Common
  import opened Reputation

  const VOUCH_DURATION: nat := 2_592_000

  datatype Record = Record(mentor: Address, learner: Address, ts: nat, boost: nat, active: bool)

  datatype Ledger = Ledger(admin: Address, verified: map<Address, bool>, boost: nat,
                           records: map<(Address, Address), Record>, mentors: map<Address, seq<Address>>,
                           baselines: map<Address, nat>, totals: map<Address, nat>,
                           scores: Scores, now: nat)

  function MentorsOf(v: Ledger, learner: Address): seq<Address> {
    GetOr(v.mentors, learner, [])
  }

  function Total(v: Ledger, learner: Address): nat {
    GetOr(v.totals, learner, 0)
  }

  /** The score the active vouches started from; the score itself while there are none. */
  function Baseline(v: Ledger, learner: Address): nat {
    GetOr(v.baselines, learner, Score(v.scores, learner))
  }

  /** The last moment at which a vouch still counts. */
  function Expiry(r: Record): nat {
    Min(r.ts + VOUCH_DURATION, U64_MAX)
  }

  // ---------------------------------------------------------------- entry points

  function SetMentor(v: Ledger, caller: Address, mentor: Address, verified: bool): Result<Ledger> {
    var _ :- Need(caller == v.admin, NotAdmin);
    Ok(v.(verified := v.verified[mentor := verified]))
  }

  function Vouch(v: Ledger, mentor: Address, learner: Address): Result<Ledger> {
    var _ :- Need(GetOr(v.verified, mentor, false), MentorNotVerified);
    var _ :- Need((mentor, learner) in v.records ==> !v.records[(mentor, learner)].active, VouchAlreadyActive);
    var listed := MentorsOf(v, learner);
    var scores :- IncreaseScore(v.scores, learner, v.boost);
    var _ :- Need(Total(v, learner) + v.boost <= U32_MAX, Overflow);
    Ok(v.(records := v.records[(mentor, learner) := Record(mentor, learner, v.now, v.boost, true)],
          mentors := if mentor in listed then v.mentors else v.mentors[learner := listed + [mentor]],
          baselines := if Total(v, learner) == 0 then v.baselines[learner := Score(v.scores, learner)] else v.baselines,
          totals := v.totals[learner := Total(v, learner) + v.boost],
          scores := scores))
  }

  /** What ending the vouch `r` takes off the learner's score: its boost, but nothing at or below
      the baseline. */
  function Removable(v: Ledger, r: Record): nat {
    Min(Max(0, Score(v.scores, r.learner) - Baseline(v, r.learner)), r.boost)
  }

  /** Ends a vouch and takes its boost back. */
  function EndVouch(v: Ledger, r: Record): Result<Ledger> {
    var scores :- if Removable(v, r) > 0 then DecreaseScore(v.scores, r.learner, Removable(v, r)) else Ok(v.scores);
    var total := Max(0, Total(v, r.learner) - r.boost);
    Ok(v.(records := v.records[(r.mentor, r.learner) := r.(active := false)],
          baselines := if total == 0 then v.baselines - {r.learner} else v.baselines,
          totals := v.totals[r.learner := total],
          scores := scores))
  }

  function FindVouch(v: Ledger, mentor: Address, learner: Address): Result<Record> {
    if (mentor, learner) in v.records then Ok(v.records[(mentor, learner)]) else Err(VouchNotFound)
  }

  function Revoke(v: Ledger, mentor: Address, learner: Address): Result<Ledger> {
    var r :- FindVouch(v, mentor, learner);
    var _ :- Need(r.active, VouchNotActive);
    EndVouch(v, r)
  }

  function Expire(v: Ledger, mentor: Address, learner: Address): Result<Ledger> {
    var r :- FindVouch(v, mentor, learner);
    if !r.active then Ok(v)
    else
      var _ :- Need(Expiry(r) < v.now, VouchNotExpired);
      EndVouch(v, r)
  }

  /** A record as readers see it: an active vouch past its expiry shows as inactive. */
  function Shown(r: Record, now: nat): Record {
    if r.active && Expiry(r) < now then r.(active := false) else r
  }

  /** The learner's vouches, in the order of their mentors' first vouch. */
  function Listing(v: Ledger, learner: Address, mentors: seq<Address>): seq<Record> {
    if mentors == [] then []
    else
      var m := mentors[|mentors| - 1];
      Listing(v, learner, mentors[..|mentors| - 1])
      + if (m, learner) in v.records then [Shown(v.records[(m, learner)], v.now)] else []
  }

  // ---------------------------------------------------------------- steps and runs

  datatype Op =
    | CallSetMentor(caller: Address, mentor: Address, verified: bool)
    | CallVouch(mentor: Address, learner: Address)
    | CallRevoke(mentor: Address, learner: Address)
    | CallExpire(mentor: Address, learner: Address)
      // the rest of the chain: time passes, other updaters set scores, an upgrade changes the boost
    | Advance(now: nat)
    | OutsideScore(user: Address, score: nat)
    | OutsideBoost(boost: nat)

  function Step(v: Ledger, op: Op): Result<Ledger> {
    match op
    case CallSetMentor(caller, mentor, verified) => SetMentor(v, caller, mentor, verified)
    case CallVouch(mentor, learner) => Vouch(v, mentor, learner)
    case CallRevoke(mentor, learner) => Revoke(v, mentor, learner)
    case CallExpire(mentor, learner) => Expire(v, mentor, learner)
    case Advance(now) =>
      var _ :- Need(v.now <= now <= U64_MAX, ClockReversed);
      Ok(v.(now := now))
    case OutsideScore(user, score) =>
      var _ :- Need(score <= MAX_SCORE, OutOfBounds);
      Ok(v.(scores := v.scores[user := score]))
    case OutsideBoost(boost) =>
      var _ :- Need(0 < boost <= U32_MAX, InvalidBoost);
      Ok(v.(boost := boost))
  }

  function Apply(v: Ledger, op: Op): Ledger {
    match Step(v, op)
    case Ok(v') => v'
    case Err(_) => v
  }

  function Run(v: Ledger, ops: seq<Op>): Ledger {
    if ops == [] then v else Apply(Run(v, ops[..|ops| - 1]), ops[|ops| - 1])
  }

  /** The contract just initialized, over whatever scores learners already have. */
  predicate Initial(v: Ledger) {
    && v.verified == map[] && 0 < v.boost <= U32_MAX
    && v.records == map[] && v.mentors == map[] && v.baselines == map[] && v.totals == map[]
    && (forall a :: a in v.scores ==> v.scores[a] <= MAX_SCORE)
  }
}
