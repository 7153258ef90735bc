/** The insert-batching arithmetic shared by both collection writers
    (mongotools/collection_writer.go and mongotools/collectionWriter.go):
    the global minimum batch size and the batching loop of Do. */
module Batching {
  import opened Arith

  /** minBatchSizeForChannel starts at 50. It is only ever lowered to a
      positive value, so it stays positive; the type records that. */
  const InitialMinBatch: nat := 50

  type BatchSize = x: int | x > 0 witness 50

  /** The two lowering statements of MakeCollectionWriter: the batch size
      drops to insertsPerInterval, then to numInsertsPerThread, whenever
      either is positive and smaller. The result is the least of the current
      size and the positive ones among the two. */
  function LowerMinBatch(minBatch: BatchSize, insertsPerInterval: int, numInsertsPerThread: int): (m: BatchSize)
    ensures m <= minBatch
    ensures insertsPerInterval > 0 ==> m <= insertsPerInterval
    ensures numInsertsPerThread > 0 ==> m <= numInsertsPerThread
    ensures m == minBatch || m == insertsPerInterval || m == numInsertsPerThread
  {
    var m1 := if insertsPerInterval > 0 && insertsPerInterval < minBatch then insertsPerInterval else minBatch;
    if numInsertsPerThread > 0 && numInsertsPerThread < m1 then numInsertsPerThread else m1
  }

  /** Building a second writer with the same flags leaves the batch size
      where the first one put it. */
  lemma LowerMinBatchIdempotent(minBatch: BatchSize, insertsPerInterval: int, numInsertsPerThread: int)
    ensures var m := LowerMinBatch(minBatch, insertsPerInterval, numInsertsPerThread);
      LowerMinBatch(m, insertsPerInterval, numInsertsPerThread) == m
  {
  }

  /** x is the least multiple of d that is at least m. */
  predicate LeastMultipleAtLeast(x: int, d: int, m: int)
    requires d > 0
  {
    x % d == 0 && x >= m && x - d < m
  }

  /** There is only one such multiple. */
  lemma LeastMultipleUnique(x: int, y: int, d: int, m: int)
    requires d > 0
    requires LeastMultipleAtLeast(x, d, m) && LeastMultipleAtLeast(y, d, m)
    ensures x == y
  {
    if x < y {
      MultiplesApart(x, y, d);
    } else if y < x {
      MultiplesApart(y, x, d);
    }
  }

  /** The batching loop of Do: while fewer than minBatch documents went
      in, insert one more batch of docsPerInsert. Returns the documents
      inserted. */
  function FillBatches(docsPerInsert: nat, minBatch: BatchSize, inserted: nat): (r: nat)
    requires docsPerInsert > 0
    ensures r >= inserted && r >= minBatch
    ensures (r - inserted) % docsPerInsert == 0
    ensures r == inserted || r - docsPerInsert < minBatch
    decreases minBatch - inserted
  {
    if inserted < minBatch then
      var r := FillBatches(docsPerInsert, minBatch, inserted + docsPerInsert);
      ModShift(r - inserted - docsPerInsert, docsPerInsert);
      r
    else
      MulMod(0, docsPerInsert);
      inserted
  }

  /** Starting from nothing, the loop inserts exactly the least multiple of
      docsPerInsert that reaches minBatch. */
  lemma FillBatchesFromZero(docsPerInsert: nat, minBatch: BatchSize)
    requires docsPerInsert > 0
    ensures LeastMultipleAtLeast(FillBatches(docsPerInsert, minBatch, 0), docsPerInsert, minBatch)
  {
  }

  /** When docsPerInsert already reaches the batch size, one batch is sent. */
  lemma OneBatchWhenLarge(docsPerInsert: nat, minBatch: BatchSize)
    requires docsPerInsert >= minBatch
    ensures FillBatches(docsPerInsert, minBatch, 0) == docsPerInsert
  {
  }

  /** When docsPerInsert divides the batch size, exactly the batch size is
      sent. */
  lemma ExactWhenDivisible(docsPerInsert: nat, minBatch: BatchSize)
    requires docsPerInsert > 0 && minBatch % docsPerInsert == 0
    ensures FillBatches(docsPerInsert, minBatch, 0) == minBatch
  {
    FillBatchesFromZero(docsPerInsert, minBatch);
    LeastMultipleUnique(FillBatches(docsPerInsert, minBatch, 0), minBatch, docsPerInsert, minBatch);
  }

  /** Lowering the batch size after a writer was built never makes its Do
      send more than the batch size it was built with, as long as that size
      was either a multiple of docsPerInsert or at most docsPerInsert. */
  lemma {:induction false} FillBatchesMonotone(docsPerInsert: nat, built: BatchSize, later: BatchSize)
    requires docsPerInsert > 0 && later <= built
    requires built % docsPerInsert == 0 || docsPerInsert >= built
    ensures FillBatches(docsPerInsert, later, 0) <= (if docsPerInsert >= built then docsPerInsert else built)
  {
    var x := FillBatches(docsPerInsert, later, 0);
    FillBatchesFromZero(docsPerInsert, later);
    if docsPerInsert >= built {
      OneBatchWhenLarge(docsPerInsert, later);
    } else if x > built {
      MultiplesApart(built, x, docsPerInsert);
    }
  }
}
