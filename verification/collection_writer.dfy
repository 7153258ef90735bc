/** mongotools/collection_writer.go: the insert work used by the loaders
    and MakeCollectionWriter, which derives its operation budget and rate
    from the flags and the global minimum batch size. Flags are Go `int`s,
    taken as 64-bit. The collection handle and the document generator are
    not modelled: a work is named by its collection. */
module CollectionWriter {
  import opened Runtime
  import opened Arith
  import opened Batching
  import opened Benchmark

  /** The flags docsPerInsert, insertsPerInterval and insertInterval. */
  datatype Flags = Flags(docsPerInsert: int64, insertsPerInterval: int64, insertInterval: int64)

  const DefaultFlags: Flags := Flags(10, 0, 1)

  /** insertWork. */
  datatype InsertWork = InsertWork(coll: string, docsPerInsert: int64)

  /** What one call of Do does: send one Stats, or never return (a zero
      batch never reaches the batch size), or panic (make with a negative
      length). */
  datatype DoResult = Sent(stats: Stats) | Hangs | Panics

  /** insertWork.Do under the current value of minBatchSizeForChannel.
      Insert errors are only logged, so they do not appear in the result. */
  function Do(w: InsertWork, minBatch: BatchSize): (r: DoResult)
    ensures r.Panics? <==> w.docsPerInsert < 0
    ensures r.Hangs? <==> w.docsPerInsert == 0
    ensures r.Sent? ==> r.stats.(inserts := 0) == NoStats
    ensures r.Sent? ==> LeastMultipleAtLeast(r.stats.inserts, w.docsPerInsert, minBatch)
  {
    if w.docsPerInsert < 0 then Panics
    else if w.docsPerInsert == 0 then Hangs
    else
      FillBatchesFromZero(w.docsPerInsert, minBatch);
      Sent(NoStats.(inserts := FillBatches(w.docsPerInsert, minBatch, 0)))
  }

  /** A built writer and the value minBatchSizeForChannel has afterwards. */
  datatype Made = Made(info: WorkInfo<InsertWork>, minBatch: BatchSize)

  function Max(a: int, b: int): int {
    if a < b then b else a
  }

  /** MakeCollectionWriter, given the flags and the global batch size before
      the call. Division truncates toward zero and the results are converted
      to uint64 as Go does. */
  function MakeCollectionWriter(flags: Flags, minBatch: BatchSize, collname: string, numInsertsPerThread: int64): (r: Outcome<Made>)
    ensures var m := LowerMinBatch(minBatch, flags.insertsPerInterval, numInsertsPerThread);
      && (r.Panic? <==> flags.docsPerInsert == 0)
      && (r.Fatal? <==> flags.docsPerInsert != 0 && flags.docsPerInsert < m && Rem(m, flags.docsPerInsert) != 0)
      && (r.Ok? ==> r.value.minBatch == m)
    ensures r.Ok? ==> var i := r.value.info;
      && i.work == InsertWork(collname, flags.docsPerInsert)
      && i.intervalInSeconds == ToUint64(flags.insertInterval)
      && i.maxOps == ToUint64(DivInt64(numInsertsPerThread, Max(flags.docsPerInsert, r.value.minBatch)))
      && i.opsPerInterval == ToUint64(DivInt64(flags.insertsPerInterval, Max(flags.docsPerInsert, r.value.minBatch)))
  {
    var m := LowerMinBatch(minBatch, flags.insertsPerInterval, numInsertsPerThread);
    var docs := flags.docsPerInsert;
    if docs < m && docs == 0 then
      Panic("integer divide by zero")
    else if docs < m && Rem(m, docs) != 0 then
      Fatal("If you want DocsPerInterval < minBatchSizeForChannel, make it divisible by it")
    else
      var divisor := if docs < m then m else docs;
      var numOps := DivInt64(numInsertsPerThread, divisor);
      var opsPerInterval := DivInt64(flags.insertsPerInterval, divisor);
      Ok(Made(WorkInfo(InsertWork(collname, docs), ToUint64(opsPerInterval), ToUint64(flags.insertInterval), ToUint64(numOps)), m))
  }

  /** Go's int division by a positive divisor stays within int64. */
  function DivInt64(a: int64, d: int): (q: int64)
    requires d > 0
    ensures q == Quot(a, d)
    ensures a >= 0 ==> 0 <= q == a / d
  {
    QuotShrinks(a, d);
    if a >= 0 then QuotOfNatural(a, d); Quot(a, d) else Quot(a, d)
  }

  /** A non-negative budget and rate are split into batches of the larger
      of docsPerInsert and the batch size the build leaves behind. */
  lemma BudgetSplit(flags: Flags, minBatch: BatchSize, collname: string, numInsertsPerThread: int64)
    requires MakeCollectionWriter(flags, minBatch, collname, numInsertsPerThread).Ok?
    ensures var made := MakeCollectionWriter(flags, minBatch, collname, numInsertsPerThread).value;
      var divisor := Max(flags.docsPerInsert, made.minBatch);
      && (numInsertsPerThread >= 0 ==> made.info.maxOps == numInsertsPerThread / divisor)
      && (flags.insertsPerInterval >= 0 ==> made.info.opsPerInterval == flags.insertsPerInterval / divisor)
  {
    var made := MakeCollectionWriter(flags, minBatch, collname, numInsertsPerThread).value;
    var divisor := Max(flags.docsPerInsert, made.minBatch);
    var q1 := DivInt64(numInsertsPerThread, divisor);
    var q2 := DivInt64(flags.insertsPerInterval, divisor);
    assert made.info.maxOps == ToUint64(q1);
    assert made.info.opsPerInterval == ToUint64(q2);
  }

  /** A writer built with no insert budget is duration-bound. */
  lemma NoBudgetIsDurationBound(flags: Flags, minBatch: BatchSize, collname: string)
    requires MakeCollectionWriter(flags, minBatch, collname, 0).Ok?
    ensures MakeCollectionWriter(flags, minBatch, collname, 0).value.info.maxOps == 0
  {
  }

  /** The writer never overshoots its budget: on a successful build with a
      non-negative budget, MaxOps calls of Do insert at most
      numInsertsPerThread documents, even if later writers lower the global
      batch size further before this one runs. */
  lemma WithinBudget(flags: Flags, minBatch: BatchSize, collname: string, numInsertsPerThread: int64, later: BatchSize)
    requires numInsertsPerThread >= 0 && flags.docsPerInsert > 0
    requires MakeCollectionWriter(flags, minBatch, collname, numInsertsPerThread).Ok?
    requires later <= MakeCollectionWriter(flags, minBatch, collname, numInsertsPerThread).value.minBatch
    ensures var made := MakeCollectionWriter(flags, minBatch, collname, numInsertsPerThread).value;
      && Do(made.info.work, later).Sent?
      && Do(made.info.work, later).stats.inserts * made.info.maxOps <= numInsertsPerThread
  {
    var made := MakeCollectionWriter(flags, minBatch, collname, numInsertsPerThread).value;
    var m := made.minBatch;
    var d := flags.docsPerInsert;
    var divisor := Max(d, m);
    if d < m {
      QuotOfNatural(m, d);
    }
    FillBatchesMonotone(d, m, later);
    var x := FillBatches(d, later, 0);
    assert x <= divisor;
    assert made.info.maxOps == numInsertsPerThread / divisor;
    DivBelow(numInsertsPerThread, divisor);
    MulMono(x, divisor, made.info.maxOps);
  }

  /** Go's `%` agrees with the divisibility test of the model on positive
      operands, so the fatal check is exactly "docsPerInsert is smaller than
      the batch size and does not divide it". */
  lemma FatalIffIndivisible(flags: Flags, minBatch: BatchSize, collname: string, numInsertsPerThread: int64)
    requires flags.docsPerInsert > 0
    ensures var m := LowerMinBatch(minBatch, flags.insertsPerInterval, numInsertsPerThread);
      MakeCollectionWriter(flags, minBatch, collname, numInsertsPerThread).Fatal?
      <==> flags.docsPerInsert < m && m % flags.docsPerInsert != 0
  {
    QuotOfNatural(LowerMinBatch(minBatch, flags.insertsPerInterval, numInsertsPerThread), flags.docsPerInsert);
  }
}
