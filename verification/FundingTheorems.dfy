/** The outflow window and merchant exposures of reachable worlds, against the funding log. */
module FundingTheorems {
  import opened Common
  import opened ProtocolModel
  import opened ProtocolRuns
  import opened FundingLog
  import P = PoolModel

  /** The stored window counts what was funded in its ledger: all of it when a cap was configured
      throughout that ledger. Exposures are the merchants' totals. */
  lemma WindowRefinesLog(w: World, merchant: Address)
    requires Reachable(w)
    ensures
      var p := w.vault.pool;
      && P.Funded(p, merchant) == MerchantSum(p.fundings, merchant)
      && ((forall i :: 0 <= i < |p.fundings| && p.fundings[i].ledger == p.windowLedger ==> p.fundings[i].capBps > 0)
          ==> p.windowUsed == LedgerSum(p.fundings, p.windowLedger))
  {
    ReachableOk(w);
    var p := w.vault.pool;
    if forall i :: 0 <= i < |p.fundings| && p.fundings[i].ledger == p.windowLedger ==> p.fundings[i].capBps > 0 {
      AllCapped(p.fundings, p.windowLedger);
    }
  }

  lemma {:induction false} CappedPrefix(log: seq<P.Funding>, i: nat, ledger: nat)
    requires i <= |log|
    requires forall j :: 0 <= j < |log| && log[j].ledger == ledger ==> log[j].capBps > 0
    ensures CappedSum(log[..i], ledger) == LedgerSum(log[..i], ledger)
  {
    AllCapped(log[..i], ledger);
  }

  /** Every funding ever accepted under a cap left the total of its ledger, up to and including
      itself, within that fraction of the liquidity available just before it. */
  lemma OutflowStaysWithinCap(w: World, i: nat)
    requires Reachable(w) && i < |w.vault.pool.fundings|
    requires var log := w.vault.pool.fundings;
             forall j :: 0 <= j < |log| && log[j].ledger == log[i].ledger ==> log[j].capBps > 0
    ensures
      var log := w.vault.pool.fundings;
      LedgerSum(log[..i + 1], log[i].ledger) <= log[i].available * log[i].capBps / 10_000
  {
    ReachableOk(w);
    var log := w.vault.pool.fundings;
    assert WithinCap(log, i);
    CappedPrefix(log, i + 1, log[i].ledger);
  }
}
