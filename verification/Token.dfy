/** The SEP-41 token the protocol moves: a balance map and its `transfer`. */
module Token {
  import opened Common

  type Balances = map<Address, int>

  function Bal(b: Balances, a: Address): int {
    GetOr(b, a, 0)
  }

  function Transfer(b: Balances, from: Address, to: Address, amount: int): Result<Balances> {
    var _ :- Need(amount >= 0, InvalidAmount);
    var _ :- Need(Bal(b, from) >= amount, InsufficientBalance);
    var debited := b[from := Bal(b, from) - amount];
    var credited :- AddI128(Bal(debited, to), amount);
    Ok(debited[to := credited])
  }

  /** Moving tokens conserves them: only the two ends change, by the amount, and a transfer to
      oneself changes nothing. */
  lemma TransferMoves(b: Balances, from: Address, to: Address, amount: int)
    requires Transfer(b, from, to, amount).Ok?
    ensures
      var b' := Transfer(b, from, to, amount).value;
      && amount >= 0
      && (forall a {:trigger Bal(b', a)} :: Bal(b', a) == Bal(b, a)
                                    - (if a == from then amount else 0)
                                    + (if a == to then amount else 0))
  {
  }

  /** A transfer is refused for lack of funds only when the sender holds less than the amount. */
  lemma TransferAccepted(b: Balances, from: Address, to: Address, amount: int)
    ensures Transfer(b, from, to, amount).Ok?
        <==> 0 <= amount <= Bal(b, from)
             && FitsI128(if from == to then Bal(b, to) else Bal(b, to) + amount)
  {
  }

  class TokenContract {
    var balances: Balances

    constructor (initial: Balances)
      ensures balances == initial
    {
      balances := initial;
    }

    method Send(from: Address, to: Address, amount: int) returns (r: Result<()>)
      modifies this
      ensures
        var s := Transfer(old(balances), from, to, amount);
        && (r == if s.Ok? then Ok(()) else Err(s.error))
        && balances == if s.Ok? then s.value else old(balances)
    {
      if amount < 0 {
        return Err(InvalidAmount);
      }
      if Bal(balances, from) < amount {
        return Err(InsufficientBalance);
      }
      var saved := balances;
      balances := balances[from := Bal(balances, from) - amount];
      var credited := AddI128(Bal(balances, to), amount);
      if credited.Err? {
        balances := saved;
        return Err(credited.error);
      }
      balances := balances[to := credited.value];
      r := Ok(());
    }
  }
}
