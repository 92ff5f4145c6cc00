/** The per-borrower loan index: loan ids in pages of 32, and its paginated read. */
module LoanIndex {
  import opened Common

  const PAGE_SIZE: nat := 32
  const U32_RANGE: nat := 0x1_0000_0000
  // 2^37 entries fill every page a u32 page number can name.
  const CAPACITY: nat := PAGE_SIZE * U32_RANGE

  datatype Index = Index(pages: map<(Address, nat), seq<nat>>, counts: map<Address, nat>)

  const EMPTY_INDEX := Index(map[], map[])

  /** The page of entry `i`; the page number is a truncating `as u32` cast. */
  function PageNumber(i: nat): nat {
    i / PAGE_SIZE % U32_RANGE
  }

  function Page(x: Index, b: Address, page: nat): seq<nat> {
    GetOr(x.pages, (b, page), [])
  }

  function Count(x: Index, b: Address): nat {
    GetOr(x.counts, b, 0)
  }

  function Append(x: Index, b: Address, id: nat): Result<Index> {
    var count := Count(x, b);
    var page := PageNumber(count);
    var next :- AddU64(count, 1);
    Ok(Index(x.pages[(b, page) := Page(x, b, page) + [id]], x.counts[b := next]))
  }

  // ---------------------------------------------------------------- the sequence it stands for

  /** The first `n` pages of `b`, one after another. */
  function Flatten(x: Index, b: Address, n: nat): seq<nat> {
    if n == 0 then [] else Flatten(x, b, n - 1) + Page(x, b, n - 1)
  }

  function PageCount(n: nat): nat {
    (n + PAGE_SIZE - 1) / PAGE_SIZE
  }

  /** The part of `ids` that page `k` holds. */
  function Chunk(ids: seq<nat>, k: nat): seq<nat>
    requires k * PAGE_SIZE <= |ids|
  {
    ids[k * PAGE_SIZE..Min((k + 1) * PAGE_SIZE, |ids|)]
  }

  /** `b`'s pages hold exactly `ids`, 32 to a page, and nothing else is stored for `b`. */
  ghost predicate Represents(x: Index, b: Address, ids: seq<nat>) {
    && Count(x, b) == |ids|
    && (forall k: nat :: (b, k) in x.pages <==> k * PAGE_SIZE < |ids|)
    && (forall k: nat :: k * PAGE_SIZE < |ids| ==> Page(x, b, k) == Chunk(ids, k))
  }

  lemma PageOfEntry(i: nat)
    requires i < CAPACITY
    ensures PageNumber(i) == i / PAGE_SIZE < U32_RANGE
    ensures i / PAGE_SIZE * PAGE_SIZE + i % PAGE_SIZE == i
  {
  }

  /** An index that stands for `ids` flattens to it. */
  lemma {:induction false} FlattenPrefix(x: Index, b: Address, ids: seq<nat>, n: nat)
    requires Represents(x, b, ids) && n <= PageCount(|ids|)
    ensures Flatten(x, b, n) == ids[..Min(n * PAGE_SIZE, |ids|)]
  {
    if n > 0 {
      FlattenPrefix(x, b, ids, n - 1);
      assert Page(x, b, n - 1) == Chunk(ids, n - 1);
    }
  }

  lemma FlattenIsSequence(x: Index, b: Address, ids: seq<nat>)
    requires Represents(x, b, ids)
    ensures Flatten(x, b, PageCount(|ids|)) == ids
  {
    FlattenPrefix(x, b, ids, PageCount(|ids|));
  }

  /** Appending extends the sequence by the new id if and only if a page number is left: past
      2^37 entries the cast wraps and page 0 would be reused. */
  lemma AppendExtends(x: Index, b: Address, ids: seq<nat>, id: nat)
    requires Represents(x, b, ids) && |ids| <= CAPACITY
    ensures Append(x, b, id).Ok?
    ensures Represents(Append(x, b, id).value, b, ids + [id]) <==> |ids| < CAPACITY
  {
    var x' := Append(x, b, id).value;
    if |ids| < CAPACITY {
      PageOfEntry(|ids|);
      var last := |ids| / PAGE_SIZE;
      forall k: nat
        ensures (b, k) in x'.pages <==> k * PAGE_SIZE < |ids| + 1
        ensures k * PAGE_SIZE < |ids| + 1 ==> Page(x', b, k) == Chunk(ids + [id], k)
      {
        if k * PAGE_SIZE < |ids| {
          assert Page(x, b, k) == Chunk(ids, k);
        }
        if k == last {
          assert Page(x', b, k) == Page(x, b, k) + [id];
          assert |Page(x, b, k)| == |ids| - k * PAGE_SIZE;
        } else {
          assert Page(x', b, k) == Page(x, b, k);
        }
      }
    } else {
      assert PageNumber(|ids|) == 0;
      assert Page(x, b, 0) == Chunk(ids, 0);
      assert |Page(x', b, 0)| == PAGE_SIZE + 1;
      assert |Chunk(ids + [id], 0)| == PAGE_SIZE;
    }
  }

  /** Appending for one borrower leaves every other borrower's sequence alone. */
  lemma AppendFrame(x: Index, b: Address, id: nat, other: Address, ids: seq<nat>)
    requires Represents(x, other, ids) && other != b && Append(x, b, id).Ok?
    ensures Represents(Append(x, b, id).value, other, ids)
  {
    var x' := Append(x, b, id).value;
    forall k: nat
      ensures (other, k) in x'.pages <==> (other, k) in x.pages
      ensures Page(x', other, k) == Page(x, other, k)
    {
    }
  }

  /** What a paginated read returns: entries from `start` up to `start + limit`, cut at the end
      of the sequence; the addition saturates at u64. */
  function Slice(ids: seq<nat>, start: nat, limit: nat): seq<nat> {
    var end := Min(Min(start + limit, U64_MAX), |ids|);
    if start >= end then [] else ids[start..end]
  }

  /** A read returns the entries from `start` on, `limit` of them or as many as there are; the
      saturation is never seen. Two reads in a row return what one longer read does. */
  lemma SliceReads(ids: seq<nat>, start: nat, limit: nat, more: nat)
    requires |ids| <= U64_MAX
    ensures |Slice(ids, start, limit)| == Max(0, Min(limit, |ids| - start))
    ensures forall i :: 0 <= i < |Slice(ids, start, limit)| ==> Slice(ids, start, limit)[i] == ids[start + i]
    ensures Slice(ids, start, limit) + Slice(ids, start + limit, more) == Slice(ids, start, limit + more)
  {
  }

  // ---------------------------------------------------------------- storage

  class IndexStore {
    var pages: map<(Address, nat), seq<nat>>
    var counts: map<Address, nat>

    function State(): Index
      reads this
    {
      Index(pages, counts)
    }

    constructor ()
      ensures State() == EMPTY_INDEX
    {
      pages, counts := map[], map[];
    }

    method Restore(x: Index)
      modifies this
      ensures State() == x
    {
      pages, counts := x.pages, x.counts;
    }

    method Add(b: Address, id: nat) returns (r: Result<()>)
      modifies this
      ensures
        var s := Append(old(State()), b, id);
        && r == (if s.Ok? then Ok(()) else Err(s.error))
        && (s.Ok? ==> State() == s.value)
    {
      var count := GetOr(counts, b, 0);
      var page := GetOr(pages, (b, PageNumber(count)), []);
      page := page + [id];
      pages := pages[(b, PageNumber(count)) := page];
      var next :- AddU64(count, 1);
      counts := counts[b := next];
      r := Ok(());
    }

    /** Reads a page at a time. That it terminates, and never meets the missing-page error,
        rests on every page but the last being full. */
    method Read(b: Address, start: nat, limit: nat, ghost ids: seq<nat>) returns (r: Result<seq<nat>>)
      requires Represents(State(), b, ids) && |ids| <= CAPACITY
      requires start <= U64_MAX
      ensures r == Ok(Slice(ids, start, limit))
    {
      var total := GetOr(counts, b, 0);
      var result: seq<nat> := [];
      if limit == 0 || start >= total {
        return Ok(result);
      }
      var end := Min(Min(start + limit, U64_MAX), total);
      var idx := start;
      while idx < end
        invariant start <= idx <= end || (start == idx && end <= start)
        invariant end <= |ids|
        invariant result == if start <= idx then ids[start..idx] else []
        decreases end - idx
      {
        var page := PageNumber(idx);
        var offset := idx % PAGE_SIZE;
        PageOfEntry(idx);
        if (b, page) !in pages {
          return Err(LoanNotFound);
        }
        var entries := pages[(b, page)];
        assert entries == Page(State(), b, page) == Chunk(ids, page);
        ghost var before := idx;
        while offset < |entries| && idx < end
          invariant before <= idx <= end
          invariant offset <= |entries| && idx == page * PAGE_SIZE + offset
          invariant result == ids[start..idx]
          invariant idx == before ==> offset < |entries|
          decreases |entries| - offset
        {
          result := result + [entries[offset]];
          idx := idx + 1;
          offset := offset + 1;
        }
      }
      r := Ok(result);
    }
  }
}
