/**
 * `ingest_documents` (src/ingestion.py): load the pages, split them into
 * chunks, and add the chunks to the persistent vector store in consecutive
 * batches of one hundred, reporting progress per batch.
 */
module Ingestion {
  import Retrieval

  type Document = Retrieval.Document

  const BatchSize := 100

  /** `chunks[i:i+100]` for `i`, `i + 100`, ... below `|chunks|`. */
  function BatchesFrom(chunks: seq<Document>, i: nat): seq<seq<Document>>
    decreases |chunks| - i
  {
    if i >= |chunks| then []
    else [chunks[i..if i + BatchSize <= |chunks| then i + BatchSize else |chunks|]] + BatchesFrom(chunks, i + BatchSize)
  }

  /** The batches the loop hands to the store, in order. */
  function Batches(chunks: seq<Document>): seq<seq<Document>> {
    BatchesFrom(chunks, 0)
  }

  function Flatten(batches: seq<seq<Document>>): seq<Document>
    decreases |batches|
  {
    if batches == [] then [] else batches[0] + Flatten(batches[1..])
  }

  /** The number of batches for `n` chunks, `ceil(n / 100)`. */
  function BatchCount(n: nat): nat {
    (n + BatchSize - 1) / BatchSize
  }

  /** The batch taken at `i` is the next one the recursion produces. */
  lemma BatchesFromStep(chunks: seq<Document>, i: nat)
    requires i < |chunks|
    ensures BatchesFrom(chunks, i)
      == [chunks[i..if i + BatchSize <= |chunks| then i + BatchSize else |chunks|]] + BatchesFrom(chunks, i + BatchSize)
  {
  }

  /** The `j`-th batch from `i` on starts `100 j` chunks after `i`. */
  lemma {:induction false} BatchesFromAt(chunks: seq<Document>, i: nat, j: nat)
    requires j < |BatchesFrom(chunks, i)|
    ensures i + BatchSize * j < |chunks|
    ensures BatchesFrom(chunks, i)[j] == chunks[i + BatchSize * j..if i + BatchSize * j + BatchSize <= |chunks| then i + BatchSize * j + BatchSize else |chunks|]
    decreases |chunks| - i
  {
    if j > 0 {
      BatchesFromStep(chunks, i);
      BatchesFromAt(chunks, i + BatchSize, j - 1);
    }
  }

  /** The `j`-th batch the loop sends is `chunks[100 j : 100 j + 100]`. */
  lemma BatchAt(chunks: seq<Document>, j: nat)
    requires j < |Batches(chunks)|
    ensures BatchSize * j < |chunks|
    ensures Batches(chunks)[j] == chunks[BatchSize * j..if BatchSize * j + BatchSize <= |chunks| then BatchSize * j + BatchSize else |chunks|]
  {
    BatchesFromAt(chunks, 0, j);
  }

  /** Concatenated in order, the batches from `i` on are exactly the chunks from `i` on. */
  lemma {:induction false} BatchesFromRebuild(chunks: seq<Document>, i: nat)
    requires i <= |chunks|
    ensures Flatten(BatchesFrom(chunks, i)) == chunks[i..]
    decreases |chunks| - i
  {
    if i < |chunks| {
      if i + BatchSize <= |chunks| {
        BatchesFromRebuild(chunks, i + BatchSize);
        assert chunks[i..] == chunks[i..i + BatchSize] + chunks[i + BatchSize..];
      } else {
        assert BatchesFrom(chunks, i + BatchSize) == [];
      }
    }
  }

  /** Every chunk is added exactly once and in order. */
  lemma BatchesRebuildChunks(chunks: seq<Document>)
    ensures Flatten(Batches(chunks)) == chunks
  {
    BatchesFromRebuild(chunks, 0);
  }

  lemma {:induction false} BatchesFromCount(chunks: seq<Document>, i: nat)
    requires i <= |chunks|
    ensures |BatchesFrom(chunks, i)| == BatchCount(|chunks| - i)
    decreases |chunks| - i
  {
    if i < |chunks| {
      if i + BatchSize <= |chunks| {
        BatchesFromCount(chunks, i + BatchSize);
      }
    }
  }

  /** There are `ceil(n / 100)` batches, so no chunk means no store call. */
  lemma BatchesCount(chunks: seq<Document>)
    ensures |Batches(chunks)| == BatchCount(|chunks|)
    ensures chunks == [] <==> Batches(chunks) == []
  {
    BatchesFromCount(chunks, 0);
  }

  lemma {:induction false} BatchesFromSizes(chunks: seq<Document>, i: nat)
    ensures forall j :: 0 <= j < |BatchesFrom(chunks, i)| ==> 0 < |BatchesFrom(chunks, i)[j]| <= BatchSize
    ensures forall j :: 0 <= j < |BatchesFrom(chunks, i)| - 1 ==> |BatchesFrom(chunks, i)[j]| == BatchSize
    decreases |chunks| - i
  {
    if i < |chunks| {
      BatchesFromSizes(chunks, i + BatchSize);
      var rest := BatchesFrom(chunks, i + BatchSize);
      if rest != [] {
        assert i + BatchSize < |chunks|;
      }
      assert BatchesFrom(chunks, i) == [BatchesFrom(chunks, i)[0]] + rest;
    }
  }

  /** Every batch holds 100 chunks except possibly the last, which holds 1 to 100. */
  lemma BatchSizes(chunks: seq<Document>)
    ensures forall j :: 0 <= j < |Batches(chunks)| ==> 0 < |Batches(chunks)[j]| <= BatchSize
    ensures forall j :: 0 <= j < |Batches(chunks)| - 1 ==> |Batches(chunks)[j]| == BatchSize
  {
    BatchesFromSizes(chunks, 0);
  }

  // ---------------------------------------------------------------------------
  // Progress report
  // ---------------------------------------------------------------------------

  /** The numbers of one progress line: batch number, announced total, batch length. */
  datatype Progress = Progress(batchNumber: nat, batchTotal: nat, batchLength: nat)

  /** The total `ingest_documents` prints, `total_chunks // 100 + 1`. */
  function ProgressTotalAsWritten(n: nat): nat {
    n / BatchSize + 1
  }

  /** The printed total is one too many exactly when the chunk count is a positive multiple of 100. */
  lemma ProgressTotalAsWrittenOverCounts(n: nat)
    requires n > 0
    ensures ProgressTotalAsWritten(n) == BatchCount(n) + 1 <==> n % BatchSize == 0
    ensures n % BatchSize != 0 ==> ProgressTotalAsWritten(n) == BatchCount(n)
  {
  }

  /** A hundred chunks are one batch, announced as "batch 1 of 2". */
  lemma ProgressTotalHundredChunks()
    ensures BatchCount(100) == 1 && ProgressTotalAsWritten(100) == 2
  {
  }

  /** The intended total: the real number of batches. */
  function ProgressTotal(n: nat): (t: nat)
    ensures t * BatchSize >= n && (t == 0 || (t - 1) * BatchSize < n)
  {
    BatchCount(n)
  }

  /** The progress lines for the batches sent so far, numbered from 1. */
  function ProgressLines(sent: seq<seq<Document>>, total: nat): seq<Progress> {
    seq(|sent|, j requires 0 <= j < |sent| => Progress(j + 1, total, |sent[j]|))
  }

  lemma ProgressLinesStep(sent: seq<seq<Document>>, batch: seq<Document>, total: nat)
    ensures ProgressLines(sent + [batch], total) == ProgressLines(sent, total) + [Progress(|sent| + 1, total, |batch|)]
  {
  }

  /** The store as the ingestion sees it: the batches added so far, in order. */
  class VectorStore {
    var added: seq<seq<Document>>

    constructor ()
      ensures added == []
    {
      added := [];
    }

    /** `add_documents(batch)`. */
    method AddDocuments(batch: seq<Document>)
      modifies this
      ensures added == old(added) + [batch]
    {
      added := added + [batch];
    }
  }

  /**
   * The batching loop. Returns the page and chunk counts, and the progress
   * lines with the intended total; the store receives exactly `Batches(chunks)`.
   */
  method IngestDocuments(rawDocuments: seq<Document>, split: seq<Document> -> seq<Document>, db: VectorStore)
    returns (pageCount: nat, chunkCount: nat, progress: seq<Progress>)
    modifies db
    ensures db.added == old(db.added) + Batches(split(rawDocuments))
    ensures pageCount == |rawDocuments| && chunkCount == |split(rawDocuments)|
    ensures |progress| == |Batches(split(rawDocuments))|
    ensures forall j :: 0 <= j < |progress| ==>
      progress[j] == Progress(j + 1, ProgressTotal(chunkCount), |Batches(split(rawDocuments))[j]|)
  {
    var chunks := split(rawDocuments);
    var totalChunks := |chunks|;
    ghost var all := Batches(chunks);
    BatchesCount(chunks);
    var i := 0;
    ghost var sent: seq<seq<Document>> := [];
    progress := [];
    while i < totalChunks
      invariant i == BatchSize * |sent|
      invariant |sent| <= |all| && sent == all[..|sent|]
      invariant |sent| < |all| <==> i < totalChunks
      invariant db.added == old(db.added) + sent
      invariant progress == ProgressLines(sent, ProgressTotal(totalChunks))
      decreases totalChunks - i
    {
      var batch := chunks[i..if i + BatchSize <= totalChunks then i + BatchSize else totalChunks];
      BatchAt(chunks, |sent|);
      assert i / BatchSize == |sent|;
      db.AddDocuments(batch);
      progress := progress + [Progress(i / BatchSize + 1, ProgressTotal(totalChunks), |batch|)];
      ProgressLinesStep(sent, batch, ProgressTotal(totalChunks));
      assert all[..|sent| + 1] == all[..|sent|] + [batch];
      sent := sent + [batch];
      i := i + BatchSize;
    }
    assert sent == all;
    pageCount, chunkCount := |rawDocuments|, totalChunks;
  }
}
