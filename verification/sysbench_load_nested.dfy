/** benchmarks/sysbench/sysbenchload/sysbenchload.go: the later copy of the
    sysbench loader. The generator fills c and pad through CString and
    PadString; SysbenchWriter gains Close; each collection's work comes from
    mongotools.NewInsertWork, which is not part of this model and is taken
    as a parameter: the work collection i receives. */
module SysbenchLoadNested {
  import opened Runtime
  import opened Benchmark
  import opened SysbenchStrings
  import opened SysbenchWriters
  import SysbenchLoad

  /** SysbenchDocGenerator.Generate: id, one rand.Int(), CString, PadString. */
  function Generate(g: SysbenchLoad.Generator): (res: (SysbenchLoad.Doc, SysbenchLoad.Generator))
    ensures res.0.id == g.currID
    ensures res.1.currID == Succ64(g.currID)
    ensures SysbenchLoad.Shaped(res.0.c, 10) && SysbenchLoad.Shaped(res.0.pad, 5)
    ensures res.1.rand.stream == g.rand.stream && res.1.rand.pos == g.rand.pos + 166
  {
    var (k, r1) := Int(g.rand);
    var (c, r2) := CString(r1);
    var (pad, r3) := PadString(r2);
    GeneratedShape(10, r1);
    GeneratedShape(5, r2);
    (SysbenchLoad.Doc(g.currID, k, c, pad), SysbenchLoad.Generator(r3, Succ64(g.currID)))
  }

  function GenerateN(g: SysbenchLoad.Generator, n: nat): (res: (seq<SysbenchLoad.Doc>, SysbenchLoad.Generator))
    ensures |res.0| == n
  {
    if n == 0 then ([], g)
    else
      var (docs, g1) := GenerateN(g, n - 1);
      var (d, g2) := Generate(g1);
      (docs + [d], g2)
  }

  /** Consecutive ids from a fresh generator: 0, 1, 2, ... */
  lemma {:induction false} FreshIds(r: Rand, n: nat)
    requires n <= TWO_64
    ensures forall i | 0 <= i < n :: GenerateN(SysbenchLoad.Generator(r, 0), n).0[i].id == i
    ensures GenerateN(SysbenchLoad.Generator(r, 0), n).1.currID == if n < TWO_64 then n else 0
  {
    if n > 0 {
      var g := SysbenchLoad.Generator(r, 0);
      FreshIds(r, n - 1);
      var prev := GenerateN(g, n - 1);
      assert prev.1.currID == n - 1;
      var next := Generate(prev.1);
      assert next.0.id == n - 1;
      assert GenerateN(g, n) == (prev.0 + [next.0], next.1);
      forall i | 0 <= i < n
        ensures (prev.0 + [next.0])[i].id == i
      {
        if i < n - 1 {
          assert (prev.0 + [next.0])[i] == prev.0[i];
        }
      }
    }
  }

  /** Both loaders produce the same documents from the same generator. */
  lemma {:induction false} SameDocuments(g: SysbenchLoad.Generator, n: nat)
    ensures GenerateN(g, n) == SysbenchLoad.GenerateN(g, n)
  {
    if n > 0 {
      SameDocuments(g, n - 1);
    }
  }

  /** main after the collections exist: the writer-count check, the writer
      slice, the assignment of work i to writer i % numWriters, the worker
      list, and Run with d = 0. */
  function Main<W>(numCollections: int64, numWriters: int64, newInsertWork: nat -> WorkInfo<W>): (r: Outcome<(seq<WorkInfo<SysbenchWriter<W>>>, int64)>)
    ensures r.Fatal? <==> numWriters > numCollections
    ensures r.Panic? <==> numWriters <= numCollections && (numWriters < 0 || (numWriters == 0 && numCollections > 0))
    ensures r.Ok? ==> var (workers, d) := r.value;
      && d == 0 && |workers| == numWriters
      && forall j | 0 <= j < numWriters ::
           && workers[j].maxOps == newInsertWork(j).maxOps
           && |workers[j].work.writers| == |Members(numCollections, numWriters, j)| > 0
           && forall k | 0 <= k < |workers[j].work.writers| ::
                workers[j].work.writers[k] == newInsertWork(Members(numCollections, numWriters, j)[k])
  {
    if numWriters > numCollections then Fatal("numWriters should not be greater than numCollections")
    else if numWriters < 0 then Panic("makeslice: len out of range")
    else
      var subs := seq(numCollections, i requires 0 <= i => newInsertWork(i));
      var workers :- Distribute(numWriters, subs);
      AllStartAtIndex(numCollections, numWriters);
      Ok((workers, 0))
  }

  /** A round of the workers' Close (or Do) calls reaches collection i's
      work exactly at writer i % numWriters. */
  lemma CloseReachesEveryCollection<W>(numCollections: int64, numWriters: int64, newInsertWork: nat -> WorkInfo<W>, i: nat)
    requires Main(numCollections, numWriters, newInsertWork).Ok? && i < numCollections
    ensures var workers := Main(numCollections, numWriters, newInsertWork).value.0;
      && 0 < numWriters
      && CloseOf(newInsertWork(i).work) in CloseCalls(workers[i % numWriters].work)
      && DoOf(newInsertWork(i).work) in DoCalls(workers[i % numWriters].work)
  {
    var workers := Main(numCollections, numWriters, newInsertWork).value.0;
    var subs := seq(numCollections, i requires 0 <= i => newInsertWork(i));
    assert workers == Distribute(numWriters, subs).value;
    EveryCollectionOnce(numWriters, subs, i);
    var j := i % numWriters;
    var k :| 0 <= k < |workers[j].work.writers| && Members(numCollections, numWriters, j)[k] == i;
    assert CloseCalls(workers[j].work)[k] == CloseOf(newInsertWork(i).work);
    assert DoCalls(workers[j].work)[k] == DoOf(newInsertWork(i).work);
  }
}
