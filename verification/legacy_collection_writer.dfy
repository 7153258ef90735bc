/** mongotools/collectionWriter.go: the older insert work, whose flags and
    batch size are unsigned 64-bit. The writer keeps the session it copied
    and closes that session when it is closed. Sessions are named by an
    identifier the caller supplies for the copy. */
module LegacyCollectionWriter {
  import opened Runtime
  import opened Batching
  import opened Benchmark
  import CollectionWriter

  /** The flags docsPerInsert, insertsPerInterval and insertInterval. */
  datatype Flags = Flags(docsPerInsert: uint64, insertsPerInterval: uint64, insertInterval: uint64)

  const DefaultFlags: Flags := Flags(10, 0, 1)

  /** collectionWriter: the copied session, the database and collection it
      writes to, and the batch width. */
  datatype Writer = Writer(session: nat, db: string, coll: string, docsPerInsert: uint64)

  /** What one DoWork does: send one record, or never return (a zero batch
      never reaches the batch size). */
  datatype DoResult = Sent(stats: Stats) | Hangs

  /** collectionWriter.DoWork under the current minBatchSizeForChannel. */
  function DoWork(w: Writer, minBatch: BatchSize): (r: DoResult)
    ensures r.Hangs? <==> w.docsPerInsert == 0
    ensures r.Sent? ==> r.stats.(inserts := 0) == NoStats
    ensures r.Sent? ==> LeastMultipleAtLeast(r.stats.inserts, w.docsPerInsert, minBatch)
  {
    if w.docsPerInsert == 0 then Hangs
    else
      FillBatchesFromZero(w.docsPerInsert, minBatch);
      Sent(NoStats.(inserts := FillBatches(w.docsPerInsert, minBatch, 0)))
  }

  /** collectionWriter.Close: the session that is closed. */
  function Close(w: Writer): nat {
    w.session
  }

  /** A built writer and the value minBatchSizeForChannel has afterwards. */
  datatype Made = Made(info: WorkInfo<Writer>, minBatch: BatchSize)

  /** MakeCollectionWriter; `copied` names the session session.Copy()
      returns. */
  function MakeCollectionWriter(flags: Flags, minBatch: BatchSize, copied: nat, dbname: string, collname: string, numInsertsPerThread: uint64): (r: Outcome<Made>)
    ensures var m := LowerMinBatch(minBatch, flags.insertsPerInterval, numInsertsPerThread);
      && (r.Panic? <==> flags.docsPerInsert == 0)
      && (r.Fatal? <==> 0 < flags.docsPerInsert < m && m % flags.docsPerInsert != 0)
      && (r.Ok? ==> r.value.minBatch == m)
    ensures r.Ok? ==> var i := r.value.info;
      var divisor := CollectionWriter.Max(flags.docsPerInsert, r.value.minBatch);
      && i.work == Writer(copied, dbname, collname, flags.docsPerInsert)
      && i.intervalInSeconds == flags.insertInterval
      && i.maxOps == numInsertsPerThread / divisor
      && i.opsPerInterval == flags.insertsPerInterval / divisor
  {
    var m := LowerMinBatch(minBatch, flags.insertsPerInterval, numInsertsPerThread);
    var docs := flags.docsPerInsert;
    if docs < m && docs == 0 then
      Panic("integer divide by zero")
    else if docs < m && m % docs != 0 then
      Fatal("If you want DocsPerInterval < minBatchSizeForChannel, make it divisible by it")
    else
      var divisor := if docs < m then m else docs;
      DivBound(numInsertsPerThread, divisor);
      DivBound(flags.insertsPerInterval, divisor);
      var info := WorkInfo(Writer(copied, dbname, collname, docs), flags.insertsPerInterval / divisor, flags.insertInterval, numInsertsPerThread / divisor);
      Ok(Made(info, m))
  }

  lemma DivBound(a: nat, d: nat)
    requires d > 0
    ensures 0 <= a / d <= a
  {
    Arith.DivNonneg(a, d);
    Arith.DivMod(a, d);
    Arith.MulMono(1, d, a / d);
  }

  /** The writer closes the session MakeCollectionWriter copied for it, not
      the one it was given. */
  lemma ClosesCopiedSession(flags: Flags, minBatch: BatchSize, copied: nat, dbname: string, collname: string, numInsertsPerThread: uint64)
    requires MakeCollectionWriter(flags, minBatch, copied, dbname, collname, numInsertsPerThread).Ok?
    ensures Close(MakeCollectionWriter(flags, minBatch, copied, dbname, collname, numInsertsPerThread).value.info.work) == copied
  {
  }

  /** The same budget guarantee as the newer writer: MaxOps calls of DoWork
      insert at most numInsertsPerThread documents, even after later
      writers lower the batch size. */
  lemma WithinBudget(flags: Flags, minBatch: BatchSize, copied: nat, dbname: string, collname: string, numInsertsPerThread: uint64, later: BatchSize)
    requires MakeCollectionWriter(flags, minBatch, copied, dbname, collname, numInsertsPerThread).Ok?
    requires later <= MakeCollectionWriter(flags, minBatch, copied, dbname, collname, numInsertsPerThread).value.minBatch
    ensures var made := MakeCollectionWriter(flags, minBatch, copied, dbname, collname, numInsertsPerThread).value;
      && DoWork(made.info.work, later).Sent?
      && DoWork(made.info.work, later).stats.inserts * made.info.maxOps <= numInsertsPerThread
  {
    var made := MakeCollectionWriter(flags, minBatch, copied, dbname, collname, numInsertsPerThread).value;
    var m := made.minBatch;
    var d := flags.docsPerInsert;
    var divisor := CollectionWriter.Max(d, m);
    FillBatchesMonotone(d, m, later);
    var x := FillBatches(d, later, 0);
    Arith.DivBelow(numInsertsPerThread, divisor);
    Arith.MulMono(x, divisor, made.info.maxOps);
  }

  /** The two variants agree: on flags that are non-negative int64 values,
      the older writer fails exactly when the newer one does and otherwise
      derives the same batch size, budget and rate. */
  lemma AgreesWithNewerWriter(flags: Flags, minBatch: BatchSize, copied: nat, dbname: string, collname: string, numInsertsPerThread: uint64)
    requires flags.docsPerInsert < TWO_63 && flags.insertsPerInterval < TWO_63 && flags.insertInterval < TWO_63
    requires numInsertsPerThread < TWO_63
    ensures var older := MakeCollectionWriter(flags, minBatch, copied, dbname, collname, numInsertsPerThread);
      var newer := CollectionWriter.MakeCollectionWriter(
        CollectionWriter.Flags(flags.docsPerInsert, flags.insertsPerInterval, flags.insertInterval),
        minBatch, collname, numInsertsPerThread);
      && older.Ok? == newer.Ok? && older.Fatal? == newer.Fatal? && older.Panic? == newer.Panic?
      && (older.Ok? ==>
        && older.value.minBatch == newer.value.minBatch
        && older.value.info.maxOps == newer.value.info.maxOps
        && older.value.info.opsPerInterval == newer.value.info.opsPerInterval
        && older.value.info.intervalInSeconds == newer.value.info.intervalInSeconds)
  {
    var newFlags := CollectionWriter.Flags(flags.docsPerInsert, flags.insertsPerInterval, flags.insertInterval);
    if flags.docsPerInsert > 0 {
      CollectionWriter.FatalIffIndivisible(newFlags, minBatch, collname, numInsertsPerThread);
    }
    var newer := CollectionWriter.MakeCollectionWriter(newFlags, minBatch, collname, numInsertsPerThread);
    if newer.Ok? {
      CollectionWriter.BudgetSplit(newFlags, minBatch, collname, numInsertsPerThread);
    }
  }
}
