/** Once no loan is open, every provider can leave: the accounting, the price and the tokens of
    the pool together. */
module ExitTheorems {
  import opened Common
  import opened Arithmetic
  import opened Token
  import opened LoanModel
  import opened ProtocolModel
  import opened BookProofs
  import opened ProtocolProofs
  import opened ProtocolRuns
  import opened PriceTheorems
  import opened AcceptanceTheorems
  import P = PoolModel
  import PP = PoolProofs
  import GT = GuaranteeTheorems
  import BT = BackingTheorems
  import TT = ProtocolTheorems

  /** A pool at or above par with nothing locked and all its liquidity at hand. */
  ghost predicate Settled(w: World) {
    && WorldOk(w) && w.vault.pool.lockedLiquidity == 0
    && w.vault.pool.totalShares > 0 && PP.Quote(w.vault.pool) >= P.PRECISION
    && PoolBalance(w) >= w.vault.pool.totalLiquidity && w.vault.pool.totalLiquidity <= AMPLE
  }

  /** At or above par, what a provider's shares are worth is at least their number and at most the
      liquidity; nothing in between overflows. */
  lemma WorthOfShares(price: int, liquidity: int, total: int, shares: int)
    requires 0 <= liquidity <= AMPLE && 0 < shares <= total - P.DEAD_SHARES
    requires PP.PriceOf(price, liquidity, total) && price >= P.PRECISION
    ensures shares * P.PRECISION <= shares * price <= liquidity * P.PRECISION && FitsI128(shares * price)
    ensures shares <= shares * price / P.PRECISION <= liquidity
  {
    PP.PriceBracket(price, liquidity, total);
    MulMono(shares, total - P.DEAD_SHARES, price);
    assert (total - P.DEAD_SHARES) * price == price * total - P.DEAD_SHARES * price;
    MulMono(P.PRECISION, price, shares);
    FloorAtLeast(shares * price, P.PRECISION, shares);
    FloorAtMost(shares * price, P.PRECISION, liquidity);
  }

  predicate Leaving(w: World, p: Address) {
    Signs(w.setup, p) && P.Shares(w.vault.pool, p) > 0 && 0 <= Bal(w.vault.bal, p) <= AMPLE
  }

  /** `w'` is `w` after `p` left with at least a token a share; nobody else has more or less. */
  ghost predicate OneLeft(w: World, w': World, p: Address) {
    && w'.setup == w.setup && Bal(w'.vault.bal, p) >= Bal(w.vault.bal, p) + P.Shares(w.vault.pool, p)
    && (forall a {:trigger Bal(w'.vault.bal, a)} {:trigger P.Shares(w'.vault.pool, a)} ::
          a != p && Signs(w.setup, a) ==>
          Bal(w'.vault.bal, a) == Bal(w.vault.bal, a) && P.Shares(w'.vault.pool, a) == P.Shares(w.vault.pool, a))
  }

  lemma WithdrawalPays(w: World, p: Address)
    requires Settled(w) && Leaving(w, p)
    ensures
      var pool, shares := w.vault.pool, P.Shares(w.vault.pool, p);
      P.Withdraw(w.setup, w.vault, p, shares).Ok? && shares * PP.Quote(pool) / P.PRECISION >= shares
  {
    hide BookOk, P.Withdraw;
    var pool, shares := w.vault.pool, P.Shares(w.vault.pool, p);
    PP.SharesNonNegative(pool);
    WorthOfShares(PP.Quote(pool), pool.totalLiquidity, pool.totalShares, shares);
    PP.WithdrawAccepted(w.setup, w.vault, p, shares);
  }

  /** A withdrawal leaves the pool settled. */
  lemma StaysSettled(w: World, p: Address)
    requires Settled(w) && Leaving(w, p) && Step(w, CallWithdraw(p, P.Shares(w.vault.pool, p))).Ok?
    ensures Settled(Step(w, CallWithdraw(p, P.Shares(w.vault.pool, p))).value)
    ensures OneLeft(w, Step(w, CallWithdraw(p, P.Shares(w.vault.pool, p))).value, p)
  {
    hide BookOk, P.Withdraw, PP.Quote;
    var shares := P.Shares(w.vault.pool, p);
    WithdrawalPays(w, p);
    PP.WithdrawEffect(w.setup, w.vault, p, shares);
    PP.WithdrawKeepsPrice(w.setup, w.vault, p, shares);
    WithdrawFollows(w, p, shares);
    TransferMoves(w.vault.bal, w.setup.pool, p, shares * PP.Quote(w.vault.pool) / P.PRECISION);
  }

  /** The listed providers withdraw all their shares, one after another. */
  function Exit(w: World, providers: seq<Address>): Result<World> {
    if providers == [] then Ok(w)
    else
      var before :- Exit(w, providers[..|providers| - 1]);
      var p := providers[|providers| - 1];
      Step(before, CallWithdraw(p, P.Shares(before.vault.pool, p)))
  }

  /** Whoever has left got at least a token a share; everybody else is where they were. */
  ghost predicate Paid(w: World, w': World, gone: seq<Address>) {
    && w'.setup == w.setup
    && (forall a {:trigger Bal(w'.vault.bal, a)} :: a in gone && Leaving(w, a) ==>
          Bal(w'.vault.bal, a) >= Bal(w.vault.bal, a) + P.Shares(w.vault.pool, a))
    && (forall a {:trigger Bal(w'.vault.bal, a)} {:trigger P.Shares(w'.vault.pool, a)} ::
          a !in gone && Signs(w.setup, a) ==>
          Bal(w'.vault.bal, a) == Bal(w.vault.bal, a) && P.Shares(w'.vault.pool, a) == P.Shares(w.vault.pool, a))
  }

  lemma OneMorePaid(w: World, b: World, w': World, front: seq<Address>, last: Address)
    requires Paid(w, b, front) && OneLeft(b, w', last) && last !in front && Leaving(w, last)
    ensures Paid(w, w', front + [last])
  {
    assert Bal(b.vault.bal, last) == Bal(w.vault.bal, last);
    assert P.Shares(b.vault.pool, last) == P.Shares(w.vault.pool, last);
  }

  lemma StillLeaving(w: World, b: World, front: seq<Address>, p: Address)
    requires Paid(w, b, front) && p !in front && Leaving(w, p)
    ensures Leaving(b, p)
  {
  }

  /** In a settled pool nobody who withdraws all their shares is refused, whatever the order, and
      everybody gets at least a token a share. */
  lemma {:induction false} NobodyIsRefused(w: World, providers: seq<Address>)
    requires Settled(w) && Distinct(providers) && forall p :: p in providers ==> Leaving(w, p)
    ensures Exit(w, providers).Ok? && Settled(Exit(w, providers).value) && Paid(w, Exit(w, providers).value, providers)
  {
    hide Settled, Step, Leaving, OneLeft;
    if providers != [] {
      hide Paid;
      var front, last := providers[..|providers| - 1], providers[|providers| - 1];
      assert providers == front + [last] && last in providers && last !in front;
      forall p | p in front
        ensures p in providers
      {
      }
      NobodyIsRefused(w, front);
      var before := Exit(w, front).value;
      StillLeaving(w, before, front, last);
      WithdrawalIsStep(before, last);
      StaysSettled(before, last);
      OneMorePaid(w, before, Exit(w, providers).value, front, last);
    }
  }

  lemma WithdrawalIsStep(w: World, p: Address)
    requires Settled(w) && Leaving(w, p)
    ensures Step(w, CallWithdraw(p, P.Shares(w.vault.pool, p))).Ok?
  {
    hide Settled, P.Withdraw;
    WithdrawalPays(w, p);
  }

  // ---------------------------------------------------------------- from deployment

  lemma ParOfEmpty()
    ensures PP.Quote(P.EMPTY_POOL) == P.PRECISION
  {
  }

  predicate NoneDefaulted(b: Book) {
    forall id :: id in b.loans ==> !b.loans[id].status.Defaulted?
  }

  /** A run that leaves no loan defaulted has absorbed no loss. */
  lemma {:induction false} NoDefaultsNoLoss(w: World, ops: seq<Op>)
    requires AllOk(w) && NoneDefaulted(Run(w, ops).book)
    ensures Lossless(w, ops)
  {
    hide AllOk, Apply, AbsorbsLoss, Step;
    if ops != [] {
      var front, op := ops[..|ops| - 1], ops[|ops| - 1];
      RunFollows(w, front);
      StillNoneDefaulted(Run(w, front), op);
      NoDefaultsNoLoss(w, front);
    }
  }

  lemma StillNoneDefaulted(w: World, op: Op)
    requires AllOk(w) && NoneDefaulted(Apply(w, op).book)
    ensures NoneDefaulted(w.book) && !AbsorbsLoss(w, op)
  {
    hide BookOk, MarkDefaulted, WriteOff;
    forall id | id in w.book.loans
      ensures !w.book.loans[id].status.Defaulted?
    {
      GT.ApplyCloses(w, op, id);
    }
    if op.CallMarkDefaulted? && Step(w, op).Ok? {
      DefaultParts(w, op.id, op.params, Apply(w, op));
      GT.DefaultForfeits(w, op.id, op.params);
      GT.ApplyCloses(w, op, op.id);
    }
  }

  lemma SettledAfter(w: World, ops: seq<Op>)
    requires Initial(w) && AllOk(w)
    requires forall id :: id in Run(w, ops).book.loans ==>
               !Run(w, ops).book.loans[id].status.Active? && !Run(w, ops).book.loans[id].status.Defaulted?
    requires 0 < Run(w, ops).vault.pool.totalShares && Run(w, ops).vault.pool.totalLiquidity <= AMPLE
    ensures Settled(Run(w, ops))
  {
    hide Run, BookOk;
    ParOfEmpty();
    NoDefaultsNoLoss(w, ops);
    PriceNeverFalls(w, ops);
    RunFollows(w, ops);
    assert Reachable(Run(w, ops));
    TT.LockedIsCovered(Run(w, ops));
    BT.BackedWithoutDefaults(Run(w, ops));
  }

  /** After any run from deployment that leaves no loan Active and none Defaulted, all providers
      can withdraw all their shares, in any order: none is refused, and each gets at least a token
      a share. */
  lemma EveryoneCanLeave(w: World, ops: seq<Op>, providers: seq<Address>)
    requires Initial(w) && Distinct(providers)
    requires forall id :: id in Run(w, ops).book.loans ==>
               !Run(w, ops).book.loans[id].status.Active? && !Run(w, ops).book.loans[id].status.Defaulted?
    requires Run(w, ops).vault.pool.totalLiquidity <= AMPLE
    requires forall p :: p in providers ==> Leaving(Run(w, ops), p)
    ensures Exit(Run(w, ops), providers).Ok?
    ensures Paid(Run(w, ops), Exit(Run(w, ops), providers).value, providers)
  {
    hide Run, Paid, Exit, WorldOk;
    InitialAllOk(w);
    if providers == [] {
      NobodyLeft(Run(w, ops));
    } else {
      HasShares(w, ops, providers[0]);
      SettledAfter(w, ops);
      NobodyIsRefused(Run(w, ops), providers);
    }
  }

  lemma NobodyLeft(w: World)
    ensures Exit(w, []) == Ok(w) && Paid(w, w, [])
  {
  }

  lemma HasShares(w: World, ops: seq<Op>, p: Address)
    requires AllOk(w) && Leaving(Run(w, ops), p)
    ensures 0 < Run(w, ops).vault.pool.totalShares
  {
    hide Run;
    RunFollows(w, ops);
    PP.SharesNonNegative(Run(w, ops).vault.pool);
  }
}
