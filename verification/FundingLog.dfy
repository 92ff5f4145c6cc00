/** The rolling outflow window and the per-merchant exposure, against the log of fundings. */
module FundingLog {
  import opened Common
  import opened PoolModel

  /** Everything funded in one ledger. */
  function LedgerSum(log: seq<Funding>, ledger: nat): int {
    if log == [] then 0
    else LedgerSum(log[..|log| - 1], ledger) + if log[|log| - 1].ledger == ledger then log[|log| - 1].amount else 0
  }

  /** Everything funded in one ledger while a cap was configured. */
  function CappedSum(log: seq<Funding>, ledger: nat): int {
    if log == [] then 0
    else
      var last := log[|log| - 1];
      CappedSum(log[..|log| - 1], ledger) + if last.ledger == ledger && last.capBps > 0 then last.amount else 0
  }

  function MerchantSum(log: seq<Funding>, merchant: Address): int {
    if log == [] then 0
    else
      var last := log[|log| - 1];
      MerchantSum(log[..|log| - 1], merchant) + if last.merchant == merchant then last.amount else 0
  }

  /** Entry `i` left its ledger's capped outflow within the cap of the liquidity just before it. */
  predicate WithinCap(log: seq<Funding>, i: nat)
    requires i < |log|
  {
    log[i].capBps > 0 ==> CapHolds(log[..i + 1], log[i])
  }

  predicate CapHolds(log: seq<Funding>, event: Funding) {
    CappedSum(log, event.ledger) <= event.available * event.capBps / TOTAL_BPS
  }

  /** The stored window and exposures are those of the log, in a pool whose clock shows `now`. */
  ghost predicate WindowOk(p: Pool, now: nat) {
    var log := p.fundings;
    && p.windowLedger <= now
    && (forall i :: 0 <= i < |log| ==> log[i].ledger <= now && log[i].amount > 0)
    && (forall i :: 0 <= i < |log| && log[i].capBps > 0 ==> log[i].ledger <= p.windowLedger)
    && p.windowUsed == CappedSum(log, p.windowLedger)
    && (forall m {:trigger Funded(p, m)} :: Funded(p, m) == MerchantSum(log, m))
    && (forall i {:trigger WithinCap(log, i)} :: 0 <= i < |log| ==> WithinCap(log, i))
  }

  lemma {:induction false} NothingCapped(log: seq<Funding>, ledger: nat)
    requires forall i :: 0 <= i < |log| && log[i].capBps > 0 ==> log[i].ledger != ledger
    ensures CappedSum(log, ledger) == 0
  {
    if log != [] {
      NothingCapped(log[..|log| - 1], ledger);
    }
  }

  /** When every funding of a ledger was made under a cap, the window counts them all. */
  lemma {:induction false} AllCapped(log: seq<Funding>, ledger: nat)
    requires forall i :: 0 <= i < |log| && log[i].ledger == ledger ==> log[i].capBps > 0
    ensures CappedSum(log, ledger) == LedgerSum(log, ledger)
  {
    if log != [] {
      AllCapped(log[..|log| - 1], ledger);
    }
  }

  /** The parts of the pool that only a funding changes. */
  predicate SameLog(p: Pool, p': Pool) {
    && p'.fundings == p.fundings && p'.merchantFunded == p.merchantFunded
    && p'.windowLedger == p.windowLedger && p'.windowUsed == p.windowUsed
  }

  lemma EmptyWindowOk(now: nat)
    ensures WindowOk(EMPTY_POOL, now)
  {
    forall m
      ensures Funded(EMPTY_POOL, m) == MerchantSum([], m)
    {
    }
  }

  lemma SameLogKeepsWindow(p: Pool, p': Pool, now: nat, now': nat)
    requires WindowOk(p, now) && now <= now' && SameLog(p, p')
    ensures WindowOk(p', now')
  {
    forall m
      ensures Funded(p', m) == Funded(p, m)
    {
    }
  }

  /** The window an accepted funding leaves counts exactly its ledger's capped fundings, and stays
      within the cap. */
  lemma WindowUsedAfter(p: Pool, p': Pool, now: nat, event: Funding)
    requires WindowOk(p, now) && now <= event.ledger
    requires event.capBps == p.outflowCapBps && event.available == Available(p) >= 0
    requires p'.fundings == p.fundings + [event]
    requires AdvanceWindow(p, event.ledger, event.amount).Ok?
    requires var q := AdvanceWindow(p, event.ledger, event.amount).value;
             p'.windowLedger == q.windowLedger && p'.windowUsed == q.windowUsed
    ensures p'.windowUsed == CappedSum(p'.fundings, p'.windowLedger)
    ensures p'.windowLedger <= event.ledger
    ensures event.capBps > 0 ==> p'.windowLedger == event.ledger && CapHolds(p'.fundings, event)
  {
    var log := p.fundings;
    assert p'.fundings[..|log|] == log;
    if p.windowLedger != event.ledger {
      NothingCapped(log, event.ledger);
    }
  }

  lemma MerchantsAfter(p: Pool, p': Pool, event: Funding)
    requires forall m {:trigger Funded(p, m)} :: Funded(p, m) == MerchantSum(p.fundings, m)
    requires p'.fundings == p.fundings + [event]
    requires p'.merchantFunded == p.merchantFunded[event.merchant := Funded(p, event.merchant) + event.amount]
    ensures forall m {:trigger Funded(p', m)} :: Funded(p', m) == MerchantSum(p'.fundings, m)
  {
    assert p'.fundings[..|p.fundings|] == p.fundings;
    forall m
      ensures Funded(p', m) == MerchantSum(p'.fundings, m)
    {
      assert Funded(p', m) == Funded(p, m) + if m == event.merchant then event.amount else 0;
    }
  }

  lemma CapsAfter(log: seq<Funding>, log': seq<Funding>, event: Funding)
    requires forall i {:trigger WithinCap(log, i)} :: 0 <= i < |log| ==> WithinCap(log, i)
    requires log' == log + [event]
    requires event.capBps > 0 ==> CapHolds(log', event)
    ensures forall i {:trigger WithinCap(log', i)} :: 0 <= i < |log'| ==> WithinCap(log', i)
  {
    forall i | 0 <= i < |log'|
      ensures WithinCap(log', i)
    {
      if i < |log| {
        assert WithinCap(log, i);
        assert log'[..i + 1] == log[..i + 1];
      } else {
        assert log'[..i + 1] == log';
      }
    }
  }

  /** An accepted funding extends the log by itself and keeps the stored window and exposures
      equal to the log's. */
  lemma FundKeepsLog(c: Setup, v: Vault, now: nat, ledger: nat, merchant: Address, amount: int, vendorOk: bool,
                     v': Vault)
    requires WindowOk(v.pool, now) && now <= ledger && 0 <= Available(v.pool)
    requires FundLoan(c, v, ledger, merchant, amount, vendorOk) == Ok(v')
    ensures v'.pool.fundings
         == v.pool.fundings + [Funding(ledger, merchant, amount, v.pool.outflowCapBps, Available(v.pool))]
    ensures WindowOk(v'.pool, ledger)
    ensures v.pool.exposureCap > 0 ==> MerchantSum(v'.pool.fundings, merchant) <= v.pool.exposureCap
  {
    var p, p' := v.pool, v'.pool;
    var event := Funding(ledger, merchant, amount, p.outflowCapBps, Available(p));
    MerchantsAfter(p, p', event);
    WindowUsedAfter(p, p', now, event);
    CapsAfter(p.fundings, p'.fundings, event);
  }
}
