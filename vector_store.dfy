/**
 * The vector store: a metadata list kept in step with an external nearest-neighbour index.
 *
 * The index itself (FAISS) is external. It is modelled by the sequence of vectors it holds, in
 * insertion order (`index`, so `ntotal` is `|index|`), and its search is a function parameter
 * that reports `(distance, label)` pairs. Vectors (`V`), metadata entries (`M`), scores (`S`) and
 * queries (`Q`) are uninterpreted type parameters.
 */
module VectorStore {
  import opened Wrappers

  const DefaultEmbeddingDim := 384
  const DefaultTopK := 5
  const DefaultPath := "faiss_store"

  /** One `(distance, label)` pair reported by the index for a query. */
  datatype Hit<S> = Hit(score: S, idx: int)

  /** One element of `search`'s result list: `{"score": dist, "metadata": metadata[idx]}`. */
  datatype Retrieved<S, M> = Retrieved(score: S, metadata: M)

  datatype StoreError =
    | LengthMismatch        // ValueError("Embeddings and metadata length mismatch")
    | IndexAddFailed        // whatever `index.add` raised, re-raised unchanged
    | IoFailure(file: string)  // a failed directory creation, read or write, re-raised

  /** The two files a store is persisted to; `None` when the file is missing or cannot be read. */
  datatype StoreFiles<V, M> = StoreFiles(indexFile: Option<seq<V>>, metadataFile: Option<seq<M>>)

  function IndexFile(path: string): string { path + "/index.faiss" }
  function MetadataFile(path: string): string { path + "/metadata.pkl" }

  /** Python's `s[i]` on a list: negative positions count from the end; `None` is an `IndexError`. */
  function PyIndex<M>(s: seq<M>, i: int): Option<M> {
    if 0 <= i < |s| then Some(s[i])
    else if -|s| <= i < 0 then Some(s[|s| + i])
    else None
  }

  /**
   * The loop of `search` over the first hits: the results appended so far, or `None` once an
   * `IndexError` has escaped it. A hit is used only when its label is below `len(metadata)`.
   */
  function SearchLoop<S, M>(hits: seq<Hit<S>>, metadata: seq<M>): Option<seq<Retrieved<S, M>>> {
    if |hits| == 0 then Some([])
    else
      match SearchLoop(hits[..|hits| - 1], metadata)
      case None => None
      case Some(prev) =>
        var h := hits[|hits| - 1];
        if h.idx < |metadata| then
          match PyIndex(metadata, h.idx)
          case None => None
          case Some(m) => Some(prev + [Retrieved(h.score, m)])
        else Some(prev)
  }

  /** What `search` returns for the hits the index reported: the `except` branch turns a failure into `[]`. */
  function SearchResults<S, M>(hits: seq<Hit<S>>, metadata: seq<M>): seq<Retrieved<S, M>> {
    SearchLoop(hits, metadata).GetOr([])
  }

  /** The hits that pass `search`'s guard `idx < len(metadata)`, in the index's order. */
  function Passing<S>(hits: seq<Hit<S>>, n: int): (r: seq<Hit<S>>)
    ensures |r| <= |hits|
  {
    if hits == [] then []
    else (if hits[0].idx < n then [hits[0]] else []) + Passing(hits[1..], n)
  }

  lemma {:induction false} PassingAppend<S>(a: seq<Hit<S>>, b: seq<Hit<S>>, n: int)
    ensures Passing(a + b, n) == Passing(a, n) + Passing(b, n)
  {
    if a == [] {
      assert a + b == b;
    } else {
      assert (a + b)[1..] == a[1..] + b;
      PassingAppend(a[1..], b, n);
    }
  }

  /** Once the loop has failed, later hits cannot make it succeed. */
  lemma {:induction false} SearchLoopFailureSticks<S, M>(hits: seq<Hit<S>>, metadata: seq<M>, i: nat)
    requires i <= |hits|
    requires SearchLoop(hits[..i], metadata).None?
    ensures SearchLoop(hits, metadata).None?
  {
    if i < |hits| {
      var next := hits[..|hits| - 1];
      assert next[..i] == hits[..i];
      SearchLoopFailureSticks(next, metadata, i);
    } else {
      assert hits[..i] == hits;
    }
  }

  /** `search` returns at most as many results as the index reported pairs. */
  lemma {:induction false} SearchResultsBounded<S, M>(hits: seq<Hit<S>>, metadata: seq<M>)
    ensures |SearchResults(hits, metadata)| <= |hits|
    ensures SearchLoop(hits, metadata).Some? ==> |SearchLoop(hits, metadata).value| <= |hits|
  {
    if |hits| > 0 {
      SearchResultsBounded(hits[..|hits| - 1], metadata);
    }
  }

  /**
   * When no label is below `-len(metadata)` (so no `IndexError`), `search` emits one result per hit
   * that passes the guard, in the index's order, carrying that hit's score and Python's
   * `metadata[idx]`.
   */
  lemma {:induction false} SearchResultsFollowHits<S, M>(hits: seq<Hit<S>>, metadata: seq<M>)
    requires forall i :: 0 <= i < |hits| ==> -|metadata| <= hits[i].idx
    ensures var kept := Passing(hits, |metadata|);
      SearchLoop(hits, metadata).Some? &&
      |SearchResults(hits, metadata)| == |kept| &&
      forall j :: 0 <= j < |kept| ==>
        SearchResults(hits, metadata)[j].score == kept[j].score &&
        PyIndex(metadata, kept[j].idx) == Some(SearchResults(hits, metadata)[j].metadata)
  {
    if |hits| > 0 {
      var init, h := hits[..|hits| - 1], hits[|hits| - 1];
      assert hits == init + [h];
      SearchResultsFollowHits(init, metadata);
      PassingAppend(init, [h], |metadata|);
      assert [h][1..] == [];
    }
  }

  /** A store with no metadata returns `[]` whatever the index reports. */
  lemma {:induction false} EmptyStoreSearchesEmpty<S, M>(hits: seq<Hit<S>>)
    ensures SearchResults<S, M>(hits, []) == []
  {
    if |hits| > 0 {
      EmptyStoreSearchesEmpty<S, M>(hits[..|hits| - 1]);
    }
  }

  /** When every label names a stored entry, `search` returns exactly one result per hit, in order. */
  lemma SearchResultsOfValidLabels<S, M>(hits: seq<Hit<S>>, metadata: seq<M>)
    requires forall i :: 0 <= i < |hits| ==> 0 <= hits[i].idx < |metadata|
    ensures |SearchResults(hits, metadata)| == |hits|
    ensures forall i :: 0 <= i < |hits| ==>
      SearchResults(hits, metadata)[i] == Retrieved(hits[i].score, metadata[hits[i].idx])
  {
    SearchResultsFollowHits(hits, metadata);
    AllPass(hits, |metadata|);
  }

  lemma {:induction false} AllPass<S>(hits: seq<Hit<S>>, n: int)
    requires forall i :: 0 <= i < |hits| ==> hits[i].idx < n
    ensures Passing(hits, n) == hits
  {
    if hits != [] {
      AllPass(hits[1..], n);
    }
  }

  /**
   * The shape of FAISS's answer for an index holding `n` vectors asked for `k` neighbours: `k`
   * pairs, the first `min(k, n)` labelling stored vectors, the rest padded with label `-1`.
   */
  ghost predicate FaissShaped<S>(hits: seq<Hit<S>>, n: nat, k: nat) {
    |hits| == k &&
    forall i :: 0 <= i < k ==> if i < n then 0 <= hits[i].idx < n else hits[i].idx == -1
  }

  /**
   * As written, the guard lets FAISS's `-1` padding through: a store of `n` entries, `0 < n < k`,
   * returns `k` results, and every padded one repeats the last stored entry.
   */
  lemma PaddedSearchRepeatsLast<S, M>(hits: seq<Hit<S>>, metadata: seq<M>, k: nat)
    requires 0 < |metadata| < k
    requires FaissShaped(hits, |metadata|, k)
    ensures |SearchResults(hits, metadata)| == k
    ensures forall i :: |metadata| <= i < k ==>
      SearchResults(hits, metadata)[i] == Retrieved(hits[i].score, metadata[|metadata| - 1])
  {
    SearchResultsFollowHits(hits, metadata);
    AllPass(hits, |metadata|);
  }

  /**
   * The search the guard evidently intends: only labels `0 <= idx < len(metadata)` name an entry,
   * so padding is dropped.
   */
  function BoundedSearchResults<S, M>(hits: seq<Hit<S>>, metadata: seq<M>): (r: seq<Retrieved<S, M>>)
    ensures |r| <= |hits|
  {
    if hits == [] then []
    else
      (if 0 <= hits[0].idx < |metadata| then [Retrieved(hits[0].score, metadata[hits[0].idx])] else [])
      + BoundedSearchResults(hits[1..], metadata)
  }

  lemma {:induction false} BoundedSearchAppend<S, M>(a: seq<Hit<S>>, b: seq<Hit<S>>, metadata: seq<M>)
    ensures BoundedSearchResults(a + b, metadata) == BoundedSearchResults(a, metadata) + BoundedSearchResults(b, metadata)
  {
    if a == [] {
      assert a + b == b;
    } else {
      assert (a + b)[1..] == a[1..] + b;
      BoundedSearchAppend(a[1..], b, metadata);
    }
  }

  lemma {:induction false} BoundedSearchOfValidLabels<S, M>(hits: seq<Hit<S>>, metadata: seq<M>)
    requires forall i :: 0 <= i < |hits| ==> 0 <= hits[i].idx < |metadata|
    ensures var r := BoundedSearchResults(hits, metadata);
      |r| == |hits| && forall i :: 0 <= i < |hits| ==> r[i] == Retrieved(hits[i].score, metadata[hits[i].idx])
  {
    if hits != [] {
      BoundedSearchOfValidLabels(hits[1..], metadata);
    }
  }

  lemma {:induction false} BoundedSearchOfPadding<S, M>(hits: seq<Hit<S>>, metadata: seq<M>)
    requires forall i :: 0 <= i < |hits| ==> hits[i].idx == -1
    ensures BoundedSearchResults(hits, metadata) == []
  {
    if hits != [] {
      BoundedSearchOfPadding(hits[1..], metadata);
    }
  }

  /** With the intended guard, on FAISS's answer it returns exactly `min(k, n)` results, one per stored neighbour. */
  lemma BoundedSearchOnFaissShape<S, M>(hits: seq<Hit<S>>, metadata: seq<M>, k: nat)
    requires FaissShaped(hits, |metadata|, k)
    ensures var r := BoundedSearchResults(hits, metadata);
      var found := if k < |metadata| then k else |metadata|;
      |r| == found &&
      forall i :: 0 <= i < found ==> r[i] == Retrieved(hits[i].score, metadata[hits[i].idx])
  {
    var found := if k < |metadata| then k else |metadata|;
    assert hits == hits[..found] + hits[found..];
    BoundedSearchAppend(hits[..found], hits[found..], metadata);
    BoundedSearchOfValidLabels(hits[..found], metadata);
    BoundedSearchOfPadding(hits[found..], metadata);
  }

  class VectorStore<V, M> {
    var embeddingDim: int
    /** The vectors held by the external index, in insertion order; the index's `ntotal` is `|index|`. */
    var index: seq<V>
    var metadata: seq<M>

    /** The store's intended invariant: the i-th vector and the i-th metadata entry belong together. */
    ghost predicate Aligned()
      reads this
    {
      |index| == |metadata|
    }

    constructor (embeddingDim: int := DefaultEmbeddingDim)
      ensures this.embeddingDim == embeddingDim && index == [] && metadata == []
      ensures Aligned()
    {
      this.embeddingDim := embeddingDim;
      index := [];
      metadata := [];
    }

    /**
     * `add`: a length mismatch is rejected before anything is touched; otherwise the vectors go
     * to the index (which may raise, `indexAccepts` false) and then the metadata is extended.
     */
    method Add(embeddings: seq<V>, metadatas: seq<M>, indexAccepts: bool) returns (r: Outcome<StoreError>)
      modifies this`index, this`metadata
      ensures r == if |embeddings| != |metadatas| then Fail(LengthMismatch)
                   else if !indexAccepts then Fail(IndexAddFailed)
                   else Pass
      ensures r.Pass? ==> index == old(index) + embeddings && metadata == old(metadata) + metadatas
      ensures r.Fail? ==> index == old(index) && metadata == old(metadata)
      ensures old(Aligned()) ==> Aligned()
    {
      if |embeddings| != |metadatas| {
        return Fail(LengthMismatch);
      }
      if !indexAccepts {
        return Fail(IndexAddFailed);
      }
      index := index + embeddings;
      metadata := metadata + metadatas;
      r := Pass;
    }

    /**
     * `search`: asks the index for `topK` neighbours of `query` and maps each reported label back
     * to its metadata entry. It never raises: a failing index search, or an `IndexError` in the
     * loop, yields `[]`.
     */
    method Search<Q, S>(query: Q, indexSearch: (Q, int) -> Option<seq<Hit<S>>>, topK: int := DefaultTopK)
      returns (results: seq<Retrieved<S, M>>)
      ensures results == match indexSearch(query, topK)
                         case None => []
                         case Some(hits) => SearchResults(hits, metadata)
    {
      var found := indexSearch(query, topK);
      if found.None? {
        return [];
      }
      var hits := found.value;
      results := [];
      var i := 0;
      while i < |hits|
        invariant 0 <= i <= |hits|
        invariant SearchLoop(hits[..i], metadata) == Some(results)
      {
        var h := hits[i];
        assert hits[..i + 1][..i] == hits[..i];
        if h.idx < |metadata| {
          if h.idx < -|metadata| {
            // Python raises IndexError here; the `except` branch returns [].
            SearchLoopFailureSticks(hits, metadata, i + 1);
            return [];
          }
          var m := if h.idx >= 0 then metadata[h.idx] else metadata[|metadata| + h.idx];
          results := results + [Retrieved(h.score, m)];
        }
        i := i + 1;
      }
      assert hits[..i] == hits;
    }

    /**
     * `save`: creates the directory, writes the index file and then the metadata file; the first
     * failure is re-raised. `files` is what this call wrote (`None` for a file it did not write).
     */
    method Save(path: string, dirCreated: bool, indexWritten: bool, metadataWritten: bool)
      returns (r: Outcome<StoreError>, files: StoreFiles<V, M>)
      ensures r == if !dirCreated then Fail(IoFailure(path))
                   else if !indexWritten then Fail(IoFailure(IndexFile(path)))
                   else if !metadataWritten then Fail(IoFailure(MetadataFile(path)))
                   else Pass
      ensures files.indexFile == if dirCreated && indexWritten then Some(index) else None
      ensures files.metadataFile == if r.Pass? then Some(metadata) else None
    {
      files := StoreFiles(None, None);
      if !dirCreated {
        return Fail(IoFailure(path)), files;
      }
      if !indexWritten {
        return Fail(IoFailure(IndexFile(path))), files;
      }
      files := files.(indexFile := Some(index));
      if !metadataWritten {
        return Fail(IoFailure(MetadataFile(path))), files;
      }
      files := files.(metadataFile := Some(metadata));
      r := Pass;
    }

    /**
     * `load`: replaces the index from the index file, then the metadata from the metadata file,
     * re-raising the first failure. Not atomic: when only the metadata read fails, the new index
     * stays paired with the old metadata.
     */
    method Load(path: string, files: StoreFiles<V, M>) returns (r: Outcome<StoreError>)
      modifies this`index, this`metadata
      ensures files.indexFile.None? ==>
        r == Fail(IoFailure(IndexFile(path))) && index == old(index) && metadata == old(metadata)
      ensures files.indexFile.Some? && files.metadataFile.None? ==>
        r == Fail(IoFailure(MetadataFile(path))) && index == files.indexFile.value && metadata == old(metadata)
      ensures files.indexFile.Some? && files.metadataFile.Some? ==>
        r == Pass && index == files.indexFile.value && metadata == files.metadataFile.value
    {
      if files.indexFile.None? {
        return Fail(IoFailure(IndexFile(path)));
      }
      index := files.indexFile.value;
      if files.metadataFile.None? {
        return Fail(IoFailure(MetadataFile(path)));
      }
      metadata := files.metadataFile.value;
      r := Pass;
    }
  }

  /**
   * Saving a store and loading the written files into a fresh store of the same dimension
   * reproduces the index and the metadata (the save-and-load scenario of the store's tests).
   */
  method SaveThenLoad<V, M>(store: VectorStore<V, M>, path: string) returns (loaded: VectorStore<V, M>)
    ensures loaded.index == store.index && loaded.metadata == store.metadata
    ensures loaded.embeddingDim == store.embeddingDim
  {
    var saved, files := store.Save(path, true, true, true);
    loaded := new VectorStore(store.embeddingDim);
    var r := loaded.Load(path, files);
  }
}
