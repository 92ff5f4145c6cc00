/** The paged loan index of reachable worlds. */
module IndexTheorems {
  import opened Common
  import opened LoanIndex
  import opened ProtocolModel
  import opened BookProofs
  import opened ProtocolRuns

  /** As long as its page numbers last, the pages of a borrower flatten to exactly its loans in
      creation order, and every listed id resolves to a loan of that borrower. */
  lemma IndexListsLoans(w: World, borrower: Address)
    requires Reachable(w) && |IdsOf(w.book.loans, borrower, w.book.counter)| <= 137_438_953_472
    ensures
      var ids := IdsOf(w.book.loans, borrower, w.book.counter);
      && Count(w.book.index, borrower) == |ids|
      && (forall k: nat :: 32 * k < |ids| ==> Page(w.book.index, borrower, k) == ids[32 * k..Min(32 * k + 32, |ids|)])
      && Flatten(w.book.index, borrower, PageCount(Count(w.book.index, borrower))) == ids
      && (forall i :: 0 <= i < |ids| ==> ids[i] in w.book.loans && w.book.loans[ids[i]].borrower == borrower)
      && (forall i, j :: 0 <= i < j < |ids| ==> ids[i] < ids[j])
      && (forall id :: id in w.book.loans && w.book.loans[id].borrower == borrower ==> id in ids)
  {
    ReachableOk(w);
    var ids := IdsOf(w.book.loans, borrower, w.book.counter);
    assert Indexed(w.book, borrower);
    IdsResolve(w.book.loans, borrower, w.book.counter);
    FlattenIsSequence(w.book.index, borrower, ids);
    forall k: nat | 32 * k < |ids|
      ensures Page(w.book.index, borrower, k) == ids[32 * k..Min(32 * k + 32, |ids|)]
    {
      assert k * PAGE_SIZE < |ids|;
    }
  }
}
