/**
 * The database as the batch writer sees it: the committed price rows and
 * the committed `last_crawled_at` of each search request. A failure is
 * injected at a chosen commit.
 */
module Storage {
  import opened Basics
  import opened Seqs
  import opened Records

  /** Where the session fails, if it does. */
  datatype Failure = NoFailure | BatchCommit(batch: nat) | FinalCommit

  function RowOf(requestId: int, r: ScrapingResult, now: real): HotelPrice {
    HotelPrice(requestId, r.hotelName, r.price, r.currency, r.sourceSite, now, Some(r.detailsUrl))
  }

  function RowsOf(requestId: int, rs: seq<ScrapingResult>, now: real): (rows: seq<HotelPrice>)
    ensures |rows| == |rs|
  {
    if |rs| == 0 then [] else [RowOf(requestId, rs[0], now)] + RowsOf(requestId, rs[1..], now)
  }

  /** The `i`-th row is made from the `i`-th scraped hotel, stamped with the request and the time. */
  lemma {:induction false} RowsOfAt(requestId: int, rs: seq<ScrapingResult>, now: real, i: nat)
    requires i < |rs|
    ensures RowsOf(requestId, rs, now)[i] == RowOf(requestId, rs[i], now)
    decreases i
  {
    if i > 0 {
      RowsOfAt(requestId, rs[1..], now, i - 1);
    }
  }

  lemma {:induction false} RowsOfAppend(requestId: int, a: seq<ScrapingResult>, b: seq<ScrapingResult>, now: real)
    ensures RowsOf(requestId, a + b, now) == RowsOf(requestId, a, now) + RowsOf(requestId, b, now)
  {
    var l, r := RowsOf(requestId, a + b, now), RowsOf(requestId, a, now) + RowsOf(requestId, b, now);
    assert |l| == |r|;
    forall i | 0 <= i < |l| ensures l[i] == r[i] {
      RowsOfAt(requestId, a + b, now, i);
      if i < |a| {
        RowsOfAt(requestId, a, now, i);
        assert (a + b)[i] == a[i];
      } else {
        RowsOfAt(requestId, b, now, i - |a|);
        assert (a + b)[i] == b[i - |a|];
      }
    }
  }

  /** How many batches `range(0, n, size)` visits for a positive `size`: n / size rounded up. */
  function BatchCount(n: nat, size: nat): nat
    requires size > 0
    decreases n
  {
    if n == 0 then 0 else if n <= size then 1 else 1 + BatchCount(n - size, size)
  }

  /** How many of `n` items the first `k` batches hold. */
  function Covered(n: nat, size: nat, k: nat): (c: nat)
    requires size > 0
    ensures c <= n
    decreases k
  {
    if k == 0 || n == 0 then 0 else if n <= size then n else size + Covered(n - size, size, k - 1)
  }

  lemma MulStep(k: nat, size: nat)
    requires k > 0
    ensures k * size == size + (k - 1) * size && k * size >= size
  {
  }

  /** The first `k` batches hold `k * size` items, or all of them. */
  lemma {:induction false} CoveredIsMin(n: nat, size: nat, k: nat)
    requires size > 0
    ensures Covered(n, size, k) == if k * size <= n then k * size else n
    decreases k
  {
    if k > 0 && n > size {
      CoveredIsMin(n - size, size, k - 1);
      MulStep(k, size);
      assert Covered(n, size, k) == size + Covered(n - size, size, k - 1);
    } else if k > 0 && n > 0 {
      MulStep(k, size);
    }
  }

  /** `xs[i:i + size]` for `i` in `range(0, len(xs), size)`. */
  function Chunks<T>(xs: seq<T>, size: nat): (cs: seq<seq<T>>)
    requires size > 0
    ensures forall k :: 0 <= k < |cs| ==> 0 < |cs[k]| <= size
    ensures forall k :: 0 <= k < |cs| - 1 ==> |cs[k]| == size
    ensures |cs| == BatchCount(|xs|, size)
    decreases |xs|
  {
    if |xs| == 0 then []
    else if |xs| <= size then [xs]
    else [xs[..size]] + Chunks(xs[size..], size)
  }

  /** The chunks, put back together, are the input: nothing is lost, repeated or reordered. */
  lemma {:induction false} ChunksFlatten<T>(xs: seq<T>, size: nat)
    requires size > 0
    ensures Flatten(Chunks(xs, size)) == xs
    decreases |xs|
  {
    if |xs| > size {
      ChunksFlatten(xs[size..], size);
      assert xs[..size] + xs[size..] == xs;
    } else if |xs| > 0 {
      assert Flatten([xs]) == xs + Flatten([xs][1..]);
    }
  }

  /** A short input is one chunk, which holds all of it. */
  lemma ChunksShort<T>(xs: seq<T>, size: nat, k: nat)
    requires 0 < |xs| <= size && 0 < k <= |Chunks(xs, size)|
    ensures Flatten(Chunks(xs, size)[..k]) == xs[..Covered(|xs|, size, k)]
  {
    assert Chunks(xs, size)[..k] == [xs];
    assert Flatten([xs]) == xs + Flatten([xs][1..]);
    assert xs[..|xs|] == xs;
  }

  /** A long input has one chunk more than what follows its first chunk. */
  lemma ChunksCount<T>(xs: seq<T>, size: nat)
    requires size > 0
    ensures |xs| > size ==> |Chunks(xs, size)| == 1 + |Chunks(xs[size..], size)|
  {
  }

  /** The inductive step of `ChunksPrefix`: the first chunk, then the first `k - 1` chunks of the rest. */
  lemma ChunksPrefixStep<T>(xs: seq<T>, size: nat, k: nat)
    requires size > 0 && |xs| > size && 0 < k <= |Chunks(xs, size)|
    requires Flatten(Chunks(xs[size..], size)[..k - 1]) == xs[size..][..Covered(|xs| - size, size, k - 1)]
    ensures Flatten(Chunks(xs, size)[..k]) == xs[..Covered(|xs|, size, k)]
  {
    var cs := Chunks(xs, size);
    var tail := Chunks(xs[size..], size);
    var m := Covered(|xs| - size, size, k - 1);
    assert cs[..k] == [xs[..size]] + tail[..k - 1];
    assert cs[..k][1..] == tail[..k - 1];
    assert Covered(|xs|, size, k) == size + m;
    assert xs[..size] + xs[size..][..m] == xs[..size + m];
  }

  /** The first `k` chunks are the first `Covered` items. */
  lemma {:induction false} ChunksPrefix<T>(xs: seq<T>, size: nat, k: nat)
    requires size > 0 && k <= |Chunks(xs, size)|
    ensures Flatten(Chunks(xs, size)[..k]) == xs[..Covered(|xs|, size, k)]
    decreases |xs|
  {
    if k == 0 {
    } else if |xs| <= size {
      ChunksShort(xs, size, k);
    } else {
      ChunksCount(xs, size);
      ChunksPrefix(xs[size..], size, k - 1);
      ChunksPrefixStep(xs, size, k);
    }
  }

  /** Whether the whole save goes through. */
  predicate SaveSucceeds(n: nat, size: int, failure: Failure) {
    size != 0
    && failure != FinalCommit
    && !(size > 0 && failure.BatchCommit? && failure.batch < BatchCount(n, size))
  }

  /** How many of the `n` items are committed: all batches before the one that fails. */
  function CommittedCount(n: nat, size: int, failure: Failure): (c: nat)
    ensures c <= n
  {
    if size <= 0 then 0
    else if failure.BatchCommit? && failure.batch < BatchCount(n, size) then Covered(n, size, failure.batch)
    else n
  }

  /** Committing one more batch adds exactly that batch's rows. */
  lemma NextBatchRows(requestId: int, chunks: seq<seq<ScrapingResult>>, k: nat, now: real)
    requires k < |chunks|
    ensures RowsOf(requestId, Flatten(chunks[..k + 1]), now) ==
      RowsOf(requestId, Flatten(chunks[..k]), now) + RowsOf(requestId, chunks[k], now)
  {
    FlattenAppend(chunks[..k], [chunks[k]]);
    assert chunks[..k + 1] == chunks[..k] + [chunks[k]];
    assert [chunks[k]][1..] == [];
    assert Flatten([chunks[k]]) == chunks[k] + Flatten([chunks[k]][1..]);
    assert Flatten(chunks[..k + 1]) == Flatten(chunks[..k]) + chunks[k];
    RowsOfAppend(requestId, Flatten(chunks[..k]), chunks[k], now);
  }

  /** A save that fails at the commit of batch `k` keeps exactly the first `k` batches. */
  lemma FailedBatchRows(results: seq<ScrapingResult>, size: nat, k: nat)
    requires size > 0 && k < |Chunks(results, size)|
    ensures Flatten(Chunks(results, size)[..k]) == results[..CommittedCount(|results|, size, BatchCommit(k))]
  {
    ChunksPrefix(results, size, k);
  }

  /** A save whose batch commits all go through keeps every item. */
  lemma AllBatchesKept(results: seq<ScrapingResult>, size: nat, failure: Failure)
    requires size > 0
    requires !(failure.BatchCommit? && failure.batch < |Chunks(results, size)|)
    ensures Flatten(Chunks(results, size)[..|Chunks(results, size)|]) == results[..CommittedCount(|results|, size, failure)]
  {
    var chunks := Chunks(results, size);
    assert chunks[..|chunks|] == chunks;
    ChunksFlatten(results, size);
    assert results[..|results|] == results;
  }

  class Database {
    /** The committed `hotel_prices` rows, in insertion order. */
    var rows: seq<HotelPrice>
    /** The committed `last_crawled_at` of each search request. */
    var lastCrawled: map<int, real>

    constructor()
      ensures rows == [] && lastCrawled == map[]
    {
      rows := [];
      lastCrawled := map[];
    }

    /**
     * `_save_results_to_db`: add and commit the rows batch by batch, then
     * set `last_crawled_at` and commit. A failing commit rolls back what
     * it had pending (earlier batches stay committed) and the save fails.
     * A batch size of 0 makes `range` raise before anything is added; a
     * negative one visits no batch, so no row is written.
     */
    method SaveResults(requestId: int, results: seq<ScrapingResult>, batchSize: int, failure: Failure, now: real) returns (ok: bool)
      modifies this
      ensures ok == SaveSucceeds(|results|, batchSize, failure)
      ensures rows == old(rows) + RowsOf(requestId, results[..CommittedCount(|results|, batchSize, failure)], now)
      ensures lastCrawled == if ok then old(lastCrawled)[requestId := now] else old(lastCrawled)
    {
      if batchSize == 0 {
        return false;
      }
      if batchSize > 0 {
        var committed := CommitBatches(requestId, results, batchSize, failure, now);
        if !committed {
          return false;
        }
      }
      if failure == FinalCommit {
        return false;
      }
      lastCrawled := lastCrawled[requestId := now];
      ok := true;
    }

    /** The batch loop: each batch's rows added and committed, stopping at the failing commit. */
    method CommitBatches(requestId: int, results: seq<ScrapingResult>, batchSize: nat, failure: Failure, now: real) returns (ok: bool)
      requires batchSize > 0
      modifies this
      ensures ok == !(failure.BatchCommit? && failure.batch < BatchCount(|results|, batchSize))
      ensures rows == old(rows) + RowsOf(requestId, results[..CommittedCount(|results|, batchSize, failure)], now)
      ensures lastCrawled == old(lastCrawled)
    {
      ok := CommitChunks(requestId, Chunks(results, batchSize), failure, now);
      if ok {
        AllBatchesKept(results, batchSize, failure);
      } else {
        FailedBatchRows(results, batchSize, failure.batch);
      }
    }

    /** The loop of `CommitBatches` over given batches: their rows, up to the failing commit. */
    method CommitChunks(requestId: int, chunks: seq<seq<ScrapingResult>>, failure: Failure, now: real) returns (ok: bool)
      modifies this
      ensures ok == !(failure.BatchCommit? && failure.batch < |chunks|)
      ensures rows == old(rows) + RowsOf(requestId, Flatten(chunks[..if ok then |chunks| else failure.batch]), now)
      ensures lastCrawled == old(lastCrawled)
    {
      var k := 0;
      while k < |chunks|
        invariant 0 <= k <= |chunks|
        invariant rows == old(rows) + RowsOf(requestId, Flatten(chunks[..k]), now)
        invariant lastCrawled == old(lastCrawled)
        invariant !(failure.BatchCommit? && failure.batch < k)
      {
        if failure == BatchCommit(k) {
          return false;
        }
        NextBatchRows(requestId, chunks, k, now);
        rows := rows + RowsOf(requestId, chunks[k], now);
        k := k + 1;
      }
      ok := true;
    }
  }
}
