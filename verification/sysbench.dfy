/** benchmarks/sysbench/sysbench.go: what one SysbenchTransaction.DoWork
    reports, and how main splits the transaction rate over the threads and
    builds the run. The queries themselves are not modelled: a transaction
    is the sequence of server calls whose errors it counts, and whether each
    call fails is an oracle. */
module Sysbench {
  import opened Runtime
  import opened Benchmark

  /** SysbenchInfo: how many statements of each kind one transaction runs. */
  datatype SysbenchInfo = SysbenchInfo(
    rangeSize: nat, pointSelects: nat, simpleRanges: nat, sumRanges: nat,
    orderRanges: nat, distinctRanges: nat, indexUpdates: nat, nonIndexUpdates: nat)

  /** The fields of SysbenchTransaction that decide its calls. */
  datatype Transaction = Transaction(info: SysbenchInfo, numCollections: int, readOnly: bool, maxID: int64)

  /** The server calls whose error DoWork counts. Reads other than the
      distinct queries ignore their errors and are not listed. */
  datatype Call = Begin | Distinct | IndexUpdate | NonIndexUpdate | Remove | Insert | Commit

  /** Go's int32(x): the low 32 bits, as a signed value. */
  function ToInt32(x: int): (r: int)
    ensures -0x8000_0000 <= r < 0x8000_0000
    ensures -0x8000_0000 <= x < 0x8000_0000 ==> r == x
  {
    (x + 0x8000_0000) % 0x1_0000_0000 - 0x8000_0000
  }

  function Repeat(c: Call, n: nat): (s: seq<Call>)
    ensures |s| == n && forall i | 0 <= i < n :: s[i] == c
  {
    if n == 0 then [] else Repeat(c, n - 1) + [c]
  }

  /** The number of calls among the first n that fail. */
  function Failed(fails: nat -> bool, n: nat): (k: nat)
    ensures k <= n
  {
    if n == 0 then 0 else Failed(fails, n - 1) + (if fails(n - 1) then 1 else 0)
  }

  /** One DoWork: the calls it made and the record it sent. */
  datatype TxRun = TxRun(calls: seq<Call>, stats: Stats)

  /** The calls of the body between begin and commit: the distinct queries,
      the updates unless read-only, then the remove and the re-insert. */
  function Body(t: Transaction): seq<Call> {
    Repeat(Distinct, t.info.distinctRanges)
    + (if t.readOnly then [] else Repeat(IndexUpdate, t.info.indexUpdates) + Repeat(NonIndexUpdate, t.info.nonIndexUpdates))
    + [Remove, Insert]
  }

  /** SysbenchTransaction.DoWork. The k-th counted call fails when
      fails(k). The collection is chosen with rand.Int31n(int32(NumCollections))
      and every key with rand.Int63n(MaxID); both panic on a bound that is
      not positive, and the key of the remove is always drawn. */
  function DoWork(t: Transaction, isTokuMX: bool, fails: nat -> bool): (r: Outcome<TxRun>)
    ensures r.Panic? <==> ToInt32(t.numCollections) <= 0 || t.maxID <= 0
    ensures !r.Fatal?
    ensures r.Ok? ==> var calls := r.value.calls;
      // exactly one record, counting one operation and every failed call
      && r.value.stats == NoStats.(operations := 1, errors := Failed(fails, |calls|))
      // a transaction is begun on TokuMX only, and committed iff it began
      && (|calls| > 0 && calls[0] == Begin <==> isTokuMX)
      && (|calls| > 0 && calls[|calls| - 1] == Commit <==> isTokuMX && !fails(0))
      && |calls| == Counted(t) + (if isTokuMX then 1 else 0) + (if isTokuMX && !fails(0) then 1 else 0)
  {
    if ToInt32(t.numCollections) <= 0 || t.maxID <= 0 then
      Panic("invalid argument to Int31n or Int63n")
    else
      var began := isTokuMX && !fails(0);
      var calls := (if isTokuMX then [Begin] else []) + Body(t) + (if began then [Commit] else []);
      Ok(TxRun(calls, NoStats.(operations := 1, errors := Failed(fails, |calls|))))
  }

  /** The counted calls of the body. */
  function Counted(t: Transaction): nat {
    t.info.distinctRanges + (if t.readOnly then 0 else t.info.indexUpdates + t.info.nonIndexUpdates) + 2
  }

  /** A read-only transaction makes no update, and the errors it reports
      are bounded by its counted calls. */
  lemma ReadOnlyMakesNoUpdate(t: Transaction, isTokuMX: bool, fails: nat -> bool)
    requires t.readOnly && DoWork(t, isTokuMX, fails).Ok?
    ensures var run := DoWork(t, isTokuMX, fails).value;
      && (forall i | 0 <= i < |run.calls| :: run.calls[i] != IndexUpdate && run.calls[i] != NonIndexUpdate)
      && run.stats.errors <= t.info.distinctRanges + 4
  {
  }

  /** A transaction whose calls all succeed reports one operation and no
      error. */
  lemma CleanTransaction(t: Transaction, isTokuMX: bool, fails: nat -> bool)
    requires forall k :: !fails(k)
    requires DoWork(t, isTokuMX, fails).Ok?
    ensures DoWork(t, isTokuMX, fails).value.stats == NoStats.(operations := 1)
  {
    var n := |DoWork(t, isTokuMX, fails).value.calls|;
    NoneFailed(fails, n);
  }

  lemma {:induction false} NoneFailed(fails: nat -> bool, n: nat)
    requires forall k :: !fails(k)
    ensures Failed(fails, n) == 0
  {
    if n > 0 {
      NoneFailed(fails, n - 1);
    }
  }

  // ---------------------------------------------------------------------
  // main

  /** What main hands to the runner: one duration-bound work per thread
      (the work is named by its thread index) and the run duration. */
  datatype Setup = Setup(workers: seq<WorkInfo<nat>>, d: int64)

  /** The arithmetic of main: numTPSPerThread = numMaxTPS / numThreads
      (unsigned; a zero thread count is a division by zero), every worker is
      {item, numTPSPerThread, 1, 0}, and the duration is
      time.Duration(numSeconds) * time.Second in int64 arithmetic. Between
      the division and the workers, VerifyNotCreating ends the program when
      the -create flag (`creating`) is set. */
  function Main(numThreads: uint64, numMaxTPS: uint64, numSeconds: uint64, creating: bool): (r: Outcome<Setup>)
    ensures r.Panic? <==> numThreads == 0
    ensures r.Fatal? <==> numThreads != 0 && creating
    ensures r.Ok? ==>
      && |r.value.workers| == numThreads
      && (forall i | 0 <= i < numThreads :: r.value.workers[i] == WorkInfo(i, numMaxTPS / numThreads, 1, 0))
    ensures r.Ok? && numSeconds < TWO_63 / Second ==> r.value.d == numSeconds * Second
  {
    if numThreads == 0 then Panic("integer divide by zero")
    else if creating then Fatal("-create must be false")
    else
      var perThread := numMaxTPS / numThreads;
      Arith.DivNonneg(numMaxTPS, numThreads);
      Arith.DivMod(numMaxTPS, numThreads);
      Arith.MulMono(1, numThreads, perThread);
      var workers := seq(numThreads, i => WorkInfo(i, perThread, 1, 0));
      var secs := WrapInt64(numSeconds);
      Ok(Setup(workers, WrapInt64(secs * Second)))
  }

  /** The threads together never exceed the requested rate. */
  lemma RateSplit(numThreads: uint64, numMaxTPS: uint64, numSeconds: uint64)
    requires numThreads > 0
    ensures var s := Main(numThreads, numMaxTPS, numSeconds, false).value;
      s.workers[0].opsPerInterval * numThreads <= numMaxTPS < (s.workers[0].opsPerInterval + 1) * numThreads
  {
    Arith.DivBelow(numMaxTPS, numThreads);
  }

  /** The workers are duration-bound, so the run is accepted exactly when
      the duration is positive: a zero numSeconds is rejected by
      verifyWorks. */
  lemma AcceptedIffTimed(numThreads: uint64, numMaxTPS: uint64, numSeconds: uint64)
    requires numThreads > 0
    ensures var s := Main(numThreads, numMaxTPS, numSeconds, false).value;
      Consistent(s.workers, s.d) <==> s.d > 0
  {
    var s := Main(numThreads, numMaxTPS, numSeconds, false).value;
    if s.d <= 0 {
      assert Offends(s.workers[0], s.d);
    }
  }

  lemma ZeroSecondsRejected(numThreads: uint64, numMaxTPS: uint64)
    requires numThreads > 0
    ensures var s := Main(numThreads, numMaxTPS, 0, false).value;
      !Consistent(s.workers, s.d)
  {
    AcceptedIffTimed(numThreads, numMaxTPS, 0);
  }
}
