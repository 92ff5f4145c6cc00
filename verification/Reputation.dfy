/** Reputation scores, as the credit line and the vouching contract raise and lower them. */
module Reputation {
  import opened Common

  const MAX_SCORE: nat := 100

  type Scores = map<Address, nat>

  function Score(scores: Scores, a: Address): nat {
    GetOr(scores, a, 0)
  }

  function IncreaseScore(scores: Scores, a: Address, amount: nat): Result<Scores> {
    var _ :- Need(Score(scores, a) + amount <= MAX_SCORE, ReputationCallFailed);
    Ok(scores[a := Score(scores, a) + amount])
  }

  function DecreaseScore(scores: Scores, a: Address, amount: nat): Result<Scores> {
    var _ :- Need(Score(scores, a) >= amount, ReputationCallFailed);
    Ok(scores[a := Score(scores, a) - amount])
  }

  class ReputationContract {
    var scores: Scores

    constructor (scores: Scores)
      ensures this.scores == scores
    {
      this.scores := scores;
    }

    method Increase(user: Address, amount: nat) returns (r: Result<()>)
      modifies this
      ensures
        var s := IncreaseScore(old(scores), user, amount);
        && r == (if s.Ok? then Ok(()) else Err(s.error))
        && (s.Ok? ==> scores == s.value)
    {
      var next := GetOr(scores, user, 0) + amount;
      if next > MAX_SCORE {
        return Err(ReputationCallFailed);
      }
      scores := scores[user := next];
      r := Ok(());
    }

    method Decrease(user: Address, amount: nat) returns (r: Result<()>)
      modifies this
      ensures
        var s := DecreaseScore(old(scores), user, amount);
        && r == (if s.Ok? then Ok(()) else Err(s.error))
        && (s.Ok? ==> scores == s.value)
    {
      var current := GetOr(scores, user, 0);
      if current < amount {
        return Err(ReputationCallFailed);
      }
      scores := scores[user := current - amount];
      r := Ok(());
    }
  }
}
