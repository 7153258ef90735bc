/** benchmarks/sysbenchload/sysbenchload.go: the sysbench loader. Every
    collection gets an insert work from MakeCollectionWriter
    (mongotools/collection_writer.go), the works are bundled round-robin
    into numWriters SysbenchWriters, and the run is budget-bound (d = 0).
    The documents come from SysbenchDocGenerator. */
module SysbenchLoad {
  import opened Runtime
  import opened Benchmark
  import opened Batching
  import opened CollectionWriter
  import opened CreateCollection
  import opened SysbenchStrings
  import opened SysbenchWriters

  /** SysbenchDoc (sysbench.Doc in the nested loader). */
  datatype Doc = Doc(id: uint64, k: nat, c: seq<byte>, pad: seq<byte>)

  /** SysbenchDocGenerator: its random source and the next id. */
  datatype Generator = Generator(rand: Rand, currID: uint64)

  /** s is a generated template string of n groups: digits exactly off the
      every-twelfth positions, '-' on them. */
  predicate Shaped(s: seq<byte>, n: nat) {
    && |s| == 12 * n - 1
    && (forall i | 0 <= i < |s| :: IsDigit(s[i]) <==> i % 12 != 11)
    && (forall i | 0 <= i < |s| :: s[i] == '-' <==> i % 12 == 11)
  }

  /** Generate: the id is the counter, k one rand.Int(), c and pad the two
      templates filled by SysbenchString (which is GenString); the counter
      is a uint64 and wraps. */
  function Generate(g: Generator): (res: (Doc, Generator))
    ensures res.0.id == g.currID
    ensures res.1.currID == Succ64(g.currID)
    ensures Shaped(res.0.c, 10) && Shaped(res.0.pad, 5)
    ensures res.1.rand.stream == g.rand.stream && res.1.rand.pos == g.rand.pos + 166
  {
    var (k, r1) := Int(g.rand);
    var (c, r2) := GenString(CTemplate, r1);
    var (pad, r3) := GenString(PadTemplate, r2);
    GeneratedShape(10, r1);
    GeneratedShape(5, r2);
    (Doc(g.currID, k, c, pad), Generator(r3, Succ64(g.currID)))
  }

  /** n calls of Generate on one generator. */
  function GenerateN(g: Generator, n: nat): (res: (seq<Doc>, Generator))
    ensures |res.0| == n
  {
    if n == 0 then ([], g)
    else
      var (docs, g1) := GenerateN(g, n - 1);
      var (d, g2) := Generate(g1);
      (docs + [d], g2)
  }

  /** Ids count the earlier calls: from a counter that has room for n more
      values, the i-th document has id currID + i. A fresh generator gives
      0, 1, 2, ... */
  lemma {:induction false} GenerateIds(g: Generator, n: nat)
    requires g.currID + n <= TWO_64
    ensures forall i | 0 <= i < n :: GenerateN(g, n).0[i].id == g.currID + i
    ensures GenerateN(g, n).1.currID == if g.currID + n < TWO_64 then g.currID + n else 0
  {
    if n > 0 {
      GenerateIds(g, n - 1);
      var prev := GenerateN(g, n - 1);
      assert prev.1.currID == g.currID + n - 1;
      var next := Generate(prev.1);
      assert next.0.id == g.currID + n - 1;
      assert GenerateN(g, n) == (prev.0 + [next.0], next.1);
      forall i | 0 <= i < n
        ensures (prev.0 + [next.0])[i].id == g.currID + i
      {
        if i < n - 1 {
          assert (prev.0 + [next.0])[i] == prev.0[i];
        }
      }
    }
  }

  lemma FreshIds(r: Rand, n: nat)
    requires n <= TWO_64
    ensures forall i | 0 <= i < n :: GenerateN(Generator(r, 0), n).0[i].id == i
  {
    GenerateIds(Generator(r, 0), n);
  }

  // ---------------------------------------------------------------------
  // main

  /** The per-collection loop of main: collection i gets
      MakeCollectionWriter(..., collname_i, numInsertsPerCollection), and
      each call sees the batch size the previous one left. The first
      failure ends the program. */
  function BuildWriters(flags: Flags, minBatch: BatchSize, collname: string, n: nat, inserts: int64): (r: Outcome<(seq<WorkInfo<InsertWork>>, BatchSize)>)
    ensures r.Ok? ==> |r.value.0| == n
    ensures r.Ok? ==> forall i | 0 <= i < n ::
      r.value.0[i].work == InsertWork(GetCollectionString(collname, i), flags.docsPerInsert)
  {
    if n == 0 then Ok(([], minBatch))
    else
      var built :- BuildWriters(flags, minBatch, collname, n - 1, inserts);
      var made :- MakeCollectionWriter(flags, built.1, GetCollectionString(collname, n - 1), inserts);
      Ok((built.0 + [made.info], made.minBatch))
  }

  /** The first writer decides for all: after it the batch size no longer
      moves, so every later call succeeds exactly when the first did and
      computes the same budget and rate. */
  lemma {:induction false} BuildWritersUniform(flags: Flags, minBatch: BatchSize, collname: string, n: nat, inserts: int64)
    requires n > 0
    ensures var first := MakeCollectionWriter(flags, minBatch, GetCollectionString(collname, 0), inserts);
      var r := BuildWriters(flags, minBatch, collname, n, inserts);
      && (r.Ok? <==> first.Ok?) && (r.Panic? <==> first.Panic?)
      && (r.Ok? ==> r.value.1 == first.value.minBatch && forall i | 0 <= i < n ::
            && r.value.0[i].maxOps == first.value.info.maxOps
            && r.value.0[i].opsPerInterval == first.value.info.opsPerInterval
            && r.value.0[i].intervalInSeconds == first.value.info.intervalInSeconds)
  {
    if n > 1 {
      BuildWritersUniform(flags, minBatch, collname, n - 1, inserts);
      var first := MakeCollectionWriter(flags, minBatch, GetCollectionString(collname, 0), inserts);
      if first.Ok? {
        var m := first.value.minBatch;
        LowerMinBatchIdempotent(minBatch, flags.insertsPerInterval, inserts);
        var next := MakeCollectionWriter(flags, m, GetCollectionString(collname, n - 1), inserts);
        assert next.Ok? && next.value.minBatch == m;
      }
    }
  }

  /** What main hands to the runner, and the batch size the works run
      with. */
  datatype Load = Load(workers: seq<WorkInfo<SysbenchWriter<InsertWork>>>, d: int64, minBatch: BatchSize)

  /** main after the collections exist: the writer-count check, the writer
      slice, the per-collection loop, the worker list, and Run with d = 0. */
  function Main(flags: Flags, minBatch: BatchSize, collname: string, numCollections: int64, numWriters: int64, inserts: int64): (r: Outcome<Load>)
    ensures numWriters > numCollections ==> r.Fatal?
    ensures numWriters < 0 <= numCollections ==> r.Panic?
    ensures r.Ok? ==> var l := r.value;
      && 0 <= numWriters <= numCollections && |l.workers| == numWriters && l.d == 0
      && forall j | 0 <= j < numWriters ::
           && |l.workers[j].work.writers| == |Members(numCollections, numWriters, j)|
           && forall k | 0 <= k < |l.workers[j].work.writers| ::
                l.workers[j].work.writers[k].work
                  == InsertWork(GetCollectionString(collname, Members(numCollections, numWriters, j)[k]), flags.docsPerInsert)
  {
    if numWriters > numCollections then Fatal("numWriters should not be greater than numCollections")
    else if numWriters < 0 then Panic("makeslice: len out of range")
    else
      var built :- BuildWriters(flags, minBatch, collname, numCollections as nat, inserts);
      var workers :- Distribute(numWriters, built.0);
      Ok(Load(workers, 0, built.1))
  }

  /** Each worker's budget is the budget of every collection it writes, so
      each collection receives its own MaxOps rounds; the run is accepted
      iff that budget is positive (or there are no workers). */
  lemma MainBudgets(flags: Flags, minBatch: BatchSize, collname: string, numCollections: int64, numWriters: int64, inserts: int64)
    requires Main(flags, minBatch, collname, numCollections, numWriters, inserts).Ok?
    requires numWriters > 0
    ensures var l := Main(flags, minBatch, collname, numCollections, numWriters, inserts).value;
      var first := MakeCollectionWriter(flags, minBatch, GetCollectionString(collname, 0), inserts);
      && first.Ok?
      && (forall j, k | 0 <= j < numWriters && 0 <= k < |l.workers[j].work.writers| ::
            l.workers[j].work.writers[k].maxOps == l.workers[j].maxOps == first.value.info.maxOps)
      && (Consistent(l.workers, l.d) <==> first.value.info.maxOps > 0)
  {
    var l := Main(flags, minBatch, collname, numCollections, numWriters, inserts).value;
    var built := BuildWriters(flags, minBatch, collname, numCollections as nat, inserts);
    BuildWritersUniform(flags, minBatch, collname, numCollections as nat, inserts);
    assert l.workers == Distribute(numWriters, built.value.0).value;
    if !Consistent(l.workers, l.d) {
      var j :| 0 <= j < |l.workers| && Offends(l.workers[j], l.d);
    } else {
      assert !Offends(l.workers[0], l.d);
    }
  }

  /** A zero-writer run with collections divides by zero, after the first
      collection writer was built. */
  lemma NoWritersPanics(flags: Flags, minBatch: BatchSize, collname: string, numCollections: int64, inserts: int64)
    requires numCollections > 0
    requires MakeCollectionWriter(flags, minBatch, GetCollectionString(collname, 0), inserts).Ok?
    ensures Main(flags, minBatch, collname, numCollections, 0, inserts).Panic?
  {
    BuildWritersUniform(flags, minBatch, collname, numCollections as nat, inserts);
  }

  // ---------------------------------------------------------------------
  // SysbenchWriter.Do

  /** What one SysbenchWriter.Do achieves: the records its works sent, and
      whether every work returned. */
  datatype Sweep = Sweep(sent: seq<Stats>, finished: bool)

  /** SysbenchWriter.Do: each work's Do in order. A work that hangs or
      panics stops the sweep. */
  function DoAll(w: SysbenchWriter<InsertWork>, minBatch: BatchSize): (s: Sweep)
    ensures |s.sent| <= |w.writers|
    ensures forall k | 0 <= k < |s.sent| :: CollectionWriter.Do(w.writers[k].work, minBatch) == Sent(s.sent[k])
    ensures s.finished <==> |s.sent| == |w.writers|
    ensures !s.finished ==> !CollectionWriter.Do(w.writers[|s.sent|].work, minBatch).Sent?
    decreases |w.writers|
  {
    if |w.writers| == 0 then Sweep([], true)
    else match CollectionWriter.Do(w.writers[0].work, minBatch)
      case Sent(st) =>
        var rest := DoAll(SysbenchWriter(w.writers[1..]), minBatch);
        Sweep([st] + rest.sent, rest.finished)
      case _ => Sweep([], false)
  }

  /** Under a built load every sweep completes, and each collection
      receives one batch: the least multiple of docsPerInsert at or above
      the batch size. */
  lemma LoadSweepsComplete(flags: Flags, minBatch: BatchSize, collname: string, numCollections: int64, numWriters: int64, inserts: int64, j: nat)
    requires Main(flags, minBatch, collname, numCollections, numWriters, inserts).Ok?
    requires j < numWriters && flags.docsPerInsert > 0
    ensures var l := Main(flags, minBatch, collname, numCollections, numWriters, inserts).value;
      var s := DoAll(l.workers[j].work, l.minBatch);
      && s.finished
      && forall k | 0 <= k < |s.sent| :: LeastMultipleAtLeast(s.sent[k].inserts, flags.docsPerInsert, l.minBatch)
  {
  }
}
