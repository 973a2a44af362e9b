/**
 * `retrieve_documents` (src/retrieval.py): ask the vector store for `k + 2`
 * nearest chunks and hand back the first `k` of them, unchanged.
 */
module Retrieval {
  import opened Text

  /** A stored chunk: its text and its metadata (the `source` path among it). */
  datatype Document = Document(pageContent: string, metadata: map<string, string>)

  /** One similarity-search hit. The score is a float the code never inspects. */
  datatype Hit = Hit(doc: Document, score: real)

  /**
   * The vector store's `similarity_search_with_score(query, k=n)`, an opaque
   * service: for a query and a requested count it returns hits in its own order.
   */
  type SimilaritySearch = (string, int) -> seq<Hit>

  /** How many hits are requested from the store for a caller asking for `k`. */
  function RequestSize(k: int): int {
    k + 2
  }

  /** What `retrieve_documents(query, k, ...)` returns for a given store. */
  function Retrieved(query: string, k: int, search: SimilaritySearch): seq<Hit> {
    PrefixSlice(search(query, RequestSize(k)), k)
  }

  /**
   * The retrieval routine: one store call, a loop copying every hit into
   * `finalResults`, then the slice `finalResults[:k]`. The flag
   * `keywordsFilter` is accepted and ignored, as `retrieve_documents` does.
   */
  method RetrieveDocuments(query: string, k: int, keywordsFilter: bool, search: SimilaritySearch)
    returns (r: seq<Hit>)
    ensures r == Retrieved(query, k, search)
    ensures 0 <= k ==> |r| == if k < |search(query, k + 2)| then k else |search(query, k + 2)|
    ensures r <= search(query, k + 2)
  {
    var results := search(query, RequestSize(k));
    var finalResults: seq<Hit> := [];
    for i := 0 to |results|
      invariant finalResults == results[..i]
    {
      finalResults := finalResults + [results[i]];
    }
    r := PrefixSlice(finalResults, k);
  }

  /**
   * For a non-negative `k` the result is the first `min(k, n)` hits of the
   * store's answer to a request for `k + 2`, order and scores untouched, and
   * every hit of it is one the store returned.
   */
  lemma RetrievedIsBoundedPrefix(query: string, k: nat, search: SimilaritySearch)
    ensures var hits := search(query, k + 2);
      && |Retrieved(query, k, search)| == (if k < |hits| then k else |hits|)
      && (forall i :: 0 <= i < |Retrieved(query, k, search)| ==> Retrieved(query, k, search)[i] == hits[i])
  {
  }

  /** An empty store answer gives an empty result, never a failure. */
  lemma RetrievedEmptyStore(query: string, k: int, search: SimilaritySearch)
    requires search(query, k + 2) == []
    ensures Retrieved(query, k, search) == []
  {
  }
}
