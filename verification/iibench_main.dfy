/** benchmarks/iibench/bin/iibench.go: the iibench program after the
    collections exist. It checks the mode flags, builds numWriters insert
    works with the older MakeCollectionWriter (mongotools/collectionWriter.go)
    and numQueryThreads query works, writer i and query thread i both on
    collection i % numCollections, and runs them for numSeconds seconds.
    Each writer's copied session is named by the parameter `copied`; the
    clock reading the query works start from is `startTime`. */
module IIBenchMain {
  import opened Runtime
  import opened Batching
  import opened Benchmark
  import opened CreateCollection
  import LegacyCollectionWriter
  import IIBench

  /** The program's flags. Go's `int` is 64 bits wide. */
  datatype Flags = Flags(
    collname: string,
    numCollections: int64,
    numWriters: int64,
    numQueryThreads: int64,
    numSeconds: int64,
    numInsertsPerThread: uint64,
    writer: LegacyCollectionWriter.Flags,
    query: IIBench.QueryFlags)

  /** The two kinds of work in the worker list. */
  datatype Work = Writes(writer: LegacyCollectionWriter.Writer) | Queries(query: IIBench.QueryWork)

  /** What main hands to benchmark.Run, and the batch size the writers run
      with. */
  datatype Launch = Launch(workers: seq<WorkInfo<Work>>, d: int64, minBatch: BatchSize)

  /** The mode check of main. */
  predicate InvalidModes(f: Flags) {
    f.numInsertsPerThread > 0 && (f.numQueryThreads > 0 || f.numSeconds > 0)
  }

  /** The collection worker i of either kind targets. */
  function Target(f: Flags, i: nat): (name: string)
    requires f.numCollections != 0
    ensures name == GetCollectionString(f.collname, i % Abs(f.numCollections))
  {
    RemOfNatural(i, f.numCollections);
    GetCollectionString(f.collname, Rem(i, f.numCollections))
  }

  function LiftWriter(info: WorkInfo<LegacyCollectionWriter.Writer>): WorkInfo<Work> {
    WorkInfo(Writes(info.work), info.opsPerInterval, info.intervalInSeconds, info.maxOps)
  }

  function LiftQuery(info: WorkInfo<IIBench.QueryWork>): WorkInfo<Work> {
    WorkInfo(Queries(info.work), info.opsPerInterval, info.intervalInSeconds, info.maxOps)
  }

  /** w is the insert work of writer i: it writes collection
      i % numCollections through the session copied for it, at the flags'
      rate, within the insert budget. */
  predicate WriterAt(f: Flags, dbname: string, copied: nat -> nat, i: nat, w: WorkInfo<Work>) {
    && f.numCollections != 0
    && w.work == Writes(LegacyCollectionWriter.Writer(copied(i), dbname, Target(f, i), f.writer.docsPerInsert))
    && w.intervalInSeconds == f.writer.insertInterval
    && w.maxOps <= f.numInsertsPerThread
    && w.opsPerInterval <= f.writer.insertsPerInterval
  }

  /** ws are the insert works of writers 0, 1, ... */
  predicate WriterList(f: Flags, dbname: string, copied: nat -> nat, ws: seq<WorkInfo<Work>>) {
    forall i | 0 <= i < |ws| :: WriterAt(f, dbname, copied, i, ws[i])
  }

  lemma WriterListSnoc(f: Flags, dbname: string, copied: nat -> nat, ws: seq<WorkInfo<Work>>, w: WorkInfo<Work>)
    requires WriterList(f, dbname, copied, ws) && WriterAt(f, dbname, copied, |ws|, w)
    ensures WriterList(f, dbname, copied, ws + [w])
  {
    forall i | 0 <= i < |ws| + 1
      ensures WriterAt(f, dbname, copied, i, (ws + [w])[i])
    {
      if i < |ws| {
        assert (ws + [w])[i] == ws[i];
      }
    }
  }

  /** A writer MakeCollectionWriter built for writer i meets WriterAt. */
  lemma MadeWriterAt(f: Flags, minBatch: BatchSize, dbname: string, copied: nat -> nat, i: nat, made: LegacyCollectionWriter.Made)
    requires f.numCollections != 0
    requires LegacyCollectionWriter.MakeCollectionWriter(f.writer, minBatch, copied(i), dbname, Target(f, i), f.numInsertsPerThread) == Ok(made)
    ensures WriterAt(f, dbname, copied, i, LiftWriter(made.info))
  {
    var divisor := if f.writer.docsPerInsert < made.minBatch then made.minBatch else f.writer.docsPerInsert;
    LegacyCollectionWriter.DivBound(f.numInsertsPerThread, divisor);
    LegacyCollectionWriter.DivBound(f.writer.insertsPerInterval, divisor);
  }

  /** q is the query work of thread j: it queries collection
      j % numCollections. */
  predicate QueryAt(f: Flags, startTime: int, j: nat, q: WorkInfo<Work>) {
    f.numCollections != 0 && q == LiftQuery(IIBench.NewQueryWork(f.query, Target(f, j), startTime))
  }

  /** qs are the query works of threads 0, 1, ... */
  predicate QueryList(f: Flags, startTime: int, qs: seq<WorkInfo<Work>>) {
    forall j | 0 <= j < |qs| :: QueryAt(f, startTime, j, qs[j])
  }

  /** main's worker list: the w writers first, then the query threads. */
  predicate Launched(f: Flags, dbname: string, copied: nat -> nat, startTime: int, workers: seq<WorkInfo<Work>>, w: nat) {
    && w <= |workers|
    && (forall i | 0 <= i < w :: WriterAt(f, dbname, copied, i, workers[i]))
    && (forall k | w <= k < |workers| :: QueryAt(f, startTime, k - w, workers[k]))
  }

  lemma LaunchedAppend(f: Flags, dbname: string, copied: nat -> nat, startTime: int, ws: seq<WorkInfo<Work>>, qs: seq<WorkInfo<Work>>)
    requires WriterList(f, dbname, copied, ws) && QueryList(f, startTime, qs)
    ensures Launched(f, dbname, copied, startTime, ws + qs, |ws|)
  {
    var all := ws + qs;
    forall i | 0 <= i < |ws|
      ensures WriterAt(f, dbname, copied, i, all[i])
    {
      assert all[i] == ws[i];
    }
    forall k | |ws| <= k < |all|
      ensures QueryAt(f, startTime, k - |ws|, all[k])
    {
      assert all[k] == qs[k - |ws|];
    }
  }

  /** The writer loop: writer i computes i % numCollections, then calls
      MakeCollectionWriter under the batch size the previous call left. */
  function BuildWriters(f: Flags, minBatch: BatchSize, dbname: string, copied: nat -> nat, n: nat): (r: Outcome<(seq<WorkInfo<Work>>, BatchSize)>)
    ensures f.numCollections == 0 && n > 0 ==> r.Panic?
    ensures f.writer.docsPerInsert == 0 && n > 0 ==> r.Panic?
    ensures r.Ok? ==> |r.value.0| == n && r.value.1 <= minBatch
    ensures r.Ok? ==> WriterList(f, dbname, copied, r.value.0)
  {
    if n == 0 then Ok(([], minBatch))
    else
      var built :- BuildWriters(f, minBatch, dbname, copied, n - 1);
      if f.numCollections == 0 then Panic("integer divide by zero")
      else
        var made :- LegacyCollectionWriter.MakeCollectionWriter(f.writer, built.1, copied(n - 1), dbname, Target(f, n - 1), f.numInsertsPerThread);
        MadeWriterAt(f, built.1, dbname, copied, n - 1, made);
        WriterListSnoc(f, dbname, copied, built.0, LiftWriter(made.info));
        Ok((built.0 + [LiftWriter(made.info)], made.minBatch))
  }

  /** The query loop: query thread i reads collection i % numCollections. */
  function BuildQueries(f: Flags, startTime: int, n: nat): (r: Outcome<seq<WorkInfo<Work>>>)
    ensures r.Panic? <==> f.numCollections == 0 && n > 0
    ensures !r.Fatal?
    ensures r.Ok? ==> |r.value| == n && QueryList(f, startTime, r.value)
  {
    if n == 0 then Ok([])
    else if f.numCollections == 0 then Panic("integer divide by zero")
    else
      var qs := seq(n, i requires 0 <= i < n => LiftQuery(IIBench.NewQueryWork(f.query, Target(f, i), startTime)));
      assert forall j | 0 <= j < n :: QueryAt(f, startTime, j, qs[j]);
      Ok(qs)
  }

  /** main: the mode check, the worker slice (whose capacity
      numWriters + numQueryThreads must not be negative), the two loops,
      and the run duration numSeconds * time.Second in wrapping
      nanoseconds. */
  function Main(f: Flags, minBatch: BatchSize, dbname: string, copied: nat -> nat, startTime: int): (r: Outcome<Launch>)
    ensures InvalidModes(f) ==> r.Fatal?
    ensures !InvalidModes(f) && WrapInt64(f.numWriters + f.numQueryThreads) < 0 ==> r.Panic?
    ensures r.Ok? ==> var l := r.value;
      var w := if f.numWriters < 0 then 0 else f.numWriters as nat;
      var q := if f.numQueryThreads < 0 then 0 else f.numQueryThreads as nat;
      && !InvalidModes(f)
      && l.d == WrapInt64(f.numSeconds * Second)
      && |l.workers| == w + q
      && Launched(f, dbname, copied, startTime, l.workers, w)
  {
    if InvalidModes(f) then Fatal("Invalid values for numInsertsPerThread")
    else if WrapInt64(f.numWriters + f.numQueryThreads) < 0 then Panic("makeslice: cap out of range")
    else
      var w := if f.numWriters < 0 then 0 else f.numWriters as nat;
      var q := if f.numQueryThreads < 0 then 0 else f.numQueryThreads as nat;
      var built :- BuildWriters(f, minBatch, dbname, copied, w);
      var queries :- BuildQueries(f, startTime, q);
      LaunchedAppend(f, dbname, copied, startTime, built.0, queries);
      Ok(Launch(built.0 + queries, WrapInt64(f.numSeconds * Second), built.1))
  }

  /** In a worker list laid out as main lays it out, writer i and query
      thread j share a collection iff i and j agree modulo the number of
      collections. */
  lemma LaunchedSameCollection(f: Flags, dbname: string, copied: nat -> nat, startTime: int, workers: seq<WorkInfo<Work>>, w: nat, i: nat, j: nat)
    requires Launched(f, dbname, copied, startTime, workers, w)
    requires i < w && w + j < |workers|
    ensures f.numCollections != 0
    ensures workers[i].work.Writes? && workers[w + j].work.Queries?
    ensures workers[i].work.writer.coll == workers[w + j].work.query.coll
      <==> i % Abs(f.numCollections) == j % Abs(f.numCollections)
  {
    assert WriterAt(f, dbname, copied, i, workers[i]);
    assert QueryAt(f, startTime, w + j - w, workers[w + j]);
    var n := Abs(f.numCollections);
    if i % n != j % n {
      NamesDistinct(f.collname, i % n, j % n);
    }
  }

  /** No worker of such a list has a budget above numInsertsPerThread, and
      the query threads have none. */
  lemma LaunchedBudgets(f: Flags, dbname: string, copied: nat -> nat, startTime: int, workers: seq<WorkInfo<Work>>, w: nat)
    requires Launched(f, dbname, copied, startTime, workers, w)
    ensures forall k | 0 <= k < |workers| :: workers[k].maxOps <= f.numInsertsPerThread
    ensures forall k | w <= k < |workers| :: workers[k].maxOps == 0
  {
    forall k | 0 <= k < |workers|
      ensures workers[k].maxOps <= f.numInsertsPerThread
      ensures k >= w ==> workers[k].maxOps == 0
    {
      if k < w {
        assert WriterAt(f, dbname, copied, k, workers[k]);
      } else {
        assert QueryAt(f, startTime, k - w, workers[k]);
        assert IIBench.NewQueryWork(f.query, Target(f, k - w), startTime).maxOps == 0;
      }
    }
  }

  /** Writer i and query thread i share collection i % numCollections, and
      two workers of one kind share a collection exactly when their
      indices agree modulo the number of collections. */
  lemma SameCollection(f: Flags, minBatch: BatchSize, dbname: string, copied: nat -> nat, startTime: int, l: Launch, i: nat, j: nat)
    requires Main(f, minBatch, dbname, copied, startTime) == Ok(l)
    requires i < f.numWriters && j < f.numQueryThreads
    ensures f.numWriters as nat + j < |l.workers|
    ensures l.workers[i].work.Writes? && l.workers[f.numWriters as nat + j].work.Queries?
    ensures l.workers[i].work.writer.coll == l.workers[f.numWriters as nat + j].work.query.coll
      <==> i % Abs(f.numCollections) == j % Abs(f.numCollections)
  {
    LaunchedSameCollection(f, dbname, copied, startTime, l.workers, f.numWriters as nat, i, j);
  }

  /** A run without an insert budget and without a positive duration is
      not finite: with any worker at all, verifyWorks rejects it. */
  lemma UnboundedRunRejected(f: Flags, minBatch: BatchSize, dbname: string, copied: nat -> nat, startTime: int)
    requires Main(f, minBatch, dbname, copied, startTime).Ok?
    requires f.numInsertsPerThread == 0 && -TWO_63 <= f.numSeconds * Second <= 0
    requires f.numWriters > 0 || f.numQueryThreads > 0
    ensures var l := Main(f, minBatch, dbname, copied, startTime).value;
      !Consistent(l.workers, l.d)
  {
    var l := Main(f, minBatch, dbname, copied, startTime).value;
    var w := if f.numWriters < 0 then 0 else f.numWriters as nat;
    LaunchedBudgets(f, dbname, copied, startTime, l.workers, w);
    assert l.workers[0].maxOps == 0 && l.d <= 0;
    assert Offends(l.workers[0], l.d);
  }

  /** A timed run (which the mode check allows only without an insert
      budget) passes verifyWorks, as long as the duration does not wrap. */
  lemma TimedRunAccepted(f: Flags, minBatch: BatchSize, dbname: string, copied: nat -> nat, startTime: int)
    requires Main(f, minBatch, dbname, copied, startTime).Ok?
    requires 0 < f.numSeconds * Second < TWO_63
    ensures f.numInsertsPerThread == 0
    ensures var l := Main(f, minBatch, dbname, copied, startTime).value;
      Consistent(l.workers, l.d)
  {
    var l := Main(f, minBatch, dbname, copied, startTime).value;
    var w := if f.numWriters < 0 then 0 else f.numWriters as nat;
    LaunchedBudgets(f, dbname, copied, startTime, l.workers, w);
    assert l.d > 0;
    assert forall k | 0 <= k < |l.workers| :: l.workers[k].maxOps == 0;
  }
}
