/** mongotools/iibenchtools.go: the older iibench document maker and query
    work. MakeDoc is the generator of benchmarks/iibench/iibench.go under
    another name. IIBenchQuery.DoWork has a value receiver: the counter it
    increments belongs to a copy, so the stored counter never moves and the
    query shape never changes. Both the code as written and the
    pointer-receiver version are modelled. */
module IIBenchTools {
  import opened Runtime
  import opened Benchmark
  import IIBench

  /** IIBenchDocGenerator. */
  datatype DocGenerator = DocGenerator(rand: Rand, numCharFields: int64, charFieldLength: int64)

  /** MakeDoc: the same draws and the same fields as IIBench.Generate. */
  function MakeDoc(g: DocGenerator): (r: Outcome<(IIBench.Doc, Rand)>)
    ensures r.Panic? <==> g.numCharFields > 0 && g.charFieldLength < 0
    ensures !r.Fatal?
    ensures r.Ok? ==> var d := r.value.0;
      && d.cashRegisterID < IIBench.MaxNumCashRegisters
      && d.customerID < IIBench.MaxNumCustomers
      && d.productID < IIBench.MaxNumProducts
      && (d.charFields.Some? <==> g.numCharFields > 0)
      && (d.charFields.Some? ==>
            && |d.charFields.value| == g.numCharFields
            && forall i | 0 <= i < |d.charFields.value| ::
                 |d.charFields.value[i]| == g.charFieldLength
                 && forall j | 0 <= j < g.charFieldLength :: IIBench.IsAlnum(d.charFields.value[i][j]))
  {
    IIBench.Generate(IIBench.DocGenerator(g.rand, g.numCharFields, g.charFieldLength))
  }

  /** IIBenchQuery: the collection it reads, its start time in nanoseconds,
      and the stored counter. */
  datatype IIBenchQuery = IIBenchQuery(dbname: string, collname: string, startTime: int, numQueriesSoFar: uint64)

  /** One DoWork: the query, the IIBenchQuery as stored afterwards, the
      random source afterwards, and the record sent. */
  datatype Done = Done(query: IIBench.Query, stored: IIBenchQuery, rand: Rand, sent: Stats)

  /** The draws and the shape of one DoWork, from the counter it sees. */
  function Build(q: IIBenchQuery, r: Rand, now: int): (res: (IIBench.Query, Rand))
    ensures res.0.shape == q.numQueriesSoFar % 3
    ensures res.0.customerID < IIBench.MaxNumCustomers && res.0.cashRegisterID < IIBench.MaxNumCashRegisters
    ensures now - q.startTime > 0 ==> q.startTime <= res.0.timeToQuery < now
    ensures now - q.startTime <= 0 ==> res.0.timeToQuery == q.startTime
    ensures res.1.stream == r.stream && res.1.pos == r.pos + (if now - q.startTime > 0 then 4 else 3)
  {
    var (cid, r1) := Intn(r, IIBench.MaxNumCustomers);
    var (crid, r2) := Intn(r1, IIBench.MaxNumCashRegisters);
    var r3 := Float64(r2);
    var since := now - q.startTime;
    var (offset, r4) := if since > 0 then Intn(r3, since) else (0, r3);
    (IIBench.Query(q.numQueriesSoFar % 3, cid, crid, q.startTime + offset), r4)
  }

  /** DoWork as written: the receiver is a copy, so the increment lands on
      `copy`, which is dropped when the call returns, and what is stored
      after the call is what was stored before. */
  function DoWorkAsWritten(q: IIBenchQuery, r: Rand, now: int): (d: Done)
    ensures d.stored == q
    ensures d.query.shape == q.numQueriesSoFar % 3
    ensures d.sent == NoStats.(queries := 1)
  {
    var (query, r') := Build(q, r, now);
    var copy := q.(numQueriesSoFar := Succ64(q.numQueriesSoFar));
    Done(query, q, r', NoStats.(queries := 1))
  }

  /** DoWork with a pointer receiver, as evidently intended and as
      QueryWork.Do of benchmarks/iibench/iibench.go does it. */
  function DoWork(q: IIBenchQuery, r: Rand, now: int): (d: Done)
    ensures d.stored == q.(numQueriesSoFar := Succ64(q.numQueriesSoFar))
    ensures d.query.shape == q.numQueriesSoFar % 3
    ensures d.sent == NoStats.(queries := 1)
  {
    var (query, r') := Build(q, r, now);
    Done(query, q.(numQueriesSoFar := Succ64(q.numQueriesSoFar)), r', NoStats.(queries := 1))
  }

  /** The shapes of n calls of DoWork as written on the stored value. */
  function ShapesAsWritten(q: IIBenchQuery, r: Rand, clock: nat -> int, n: nat): (res: (seq<nat>, IIBenchQuery, Rand))
    ensures |res.0| == n
  {
    if n == 0 then ([], q, r)
    else
      var (shapes, q1, r1) := ShapesAsWritten(q, r, clock, n - 1);
      var d := DoWorkAsWritten(q1, r1, clock(n - 1));
      (shapes + [d.query.shape], d.stored, d.rand)
  }

  /** The shapes of n calls of the corrected DoWork. */
  function Shapes(q: IIBenchQuery, r: Rand, clock: nat -> int, n: nat): (res: (seq<nat>, IIBenchQuery, Rand))
    ensures |res.0| == n
  {
    if n == 0 then ([], q, r)
    else
      var (shapes, q1, r1) := Shapes(q, r, clock, n - 1);
      var d := DoWork(q1, r1, clock(n - 1));
      (shapes + [d.query.shape], d.stored, d.rand)
  }

  /** As written the shape never changes: every query of a run has the
      shape the stored counter selected at the start. */
  lemma {:induction false} ShapeNeverChanges(q: IIBenchQuery, r: Rand, clock: nat -> int, n: nat)
    ensures ShapesAsWritten(q, r, clock, n).1 == q
    ensures forall k | 0 <= k < n :: ShapesAsWritten(q, r, clock, n).0[k] == q.numQueriesSoFar % 3
  {
    if n > 0 {
      ShapeNeverChanges(q, r, clock, n - 1);
      var prev := ShapesAsWritten(q, r, clock, n - 1);
      var d := DoWorkAsWritten(prev.1, prev.2, clock(n - 1));
      assert ShapesAsWritten(q, r, clock, n) == (prev.0 + [d.query.shape], d.stored, d.rand);
      forall k | 0 <= k < n
        ensures (prev.0 + [d.query.shape])[k] == q.numQueriesSoFar % 3
      {
        if k < n - 1 {
          assert (prev.0 + [d.query.shape])[k] == prev.0[k];
        }
      }
    }
  }

  /** One more corrected call appends the shape of the stored counter and
      advances it. */
  lemma ShapesStep(q: IIBenchQuery, r: Rand, clock: nat -> int, n: nat)
    requires n > 0
    ensures var prev := Shapes(q, r, clock, n - 1);
      && Shapes(q, r, clock, n).0 == prev.0 + [prev.1.numQueriesSoFar % 3]
      && Shapes(q, r, clock, n).1.numQueriesSoFar == Succ64(prev.1.numQueriesSoFar)
  {
  }

  /** Corrected, the counter after n calls from a fresh one is n, and 0
      once it has wrapped at 2^64. */
  lemma {:induction false} ShapesCount(q: IIBenchQuery, r: Rand, clock: nat -> int, n: nat)
    requires q.numQueriesSoFar == 0 && n <= TWO_64
    ensures Shapes(q, r, clock, n).1.numQueriesSoFar == if n < TWO_64 then n else 0
  {
    if n > 0 {
      ShapesCount(q, r, clock, n - 1);
      ShapesStep(q, r, clock, n);
    }
  }

  /** Corrected, the shapes cycle 0, 1, 2, ... from a fresh counter. */
  lemma {:induction false} CorrectedCycle(q: IIBenchQuery, r: Rand, clock: nat -> int, n: nat)
    requires q.numQueriesSoFar == 0 && n <= TWO_64
    ensures forall k | 0 <= k < n :: Shapes(q, r, clock, n).0[k] == k % 3
  {
    if n > 0 {
      CorrectedCycle(q, r, clock, n - 1);
      ShapesCount(q, r, clock, n - 1);
      ShapesStep(q, r, clock, n);
      var prev := Shapes(q, r, clock, n - 1).0;
      var last := [(n - 1) % 3];
      assert Shapes(q, r, clock, n).0 == prev + last;
      forall k | 0 <= k < n
        ensures (prev + last)[k] == k % 3
      {
        if k < n - 1 {
          assert (prev + last)[k] == prev[k];
        }
      }
    }
  }

  /** Corrected, the shapes cycle 0, 1, 2, ... from a fresh counter, so
      from the second query on they differ from the shapes as written. */
  lemma ShapesCycle(q: IIBenchQuery, r: Rand, clock: nat -> int, n: nat)
    requires q.numQueriesSoFar == 0 && n <= TWO_64
    ensures forall k | 0 <= k < n :: Shapes(q, r, clock, n).0[k] == k % 3
    ensures Shapes(q, r, clock, n).1.numQueriesSoFar == if n < TWO_64 then n else 0
    ensures n >= 2 ==> Shapes(q, r, clock, n).0 != ShapesAsWritten(q, r, clock, n).0
  {
    CorrectedCycle(q, r, clock, n);
    ShapesCount(q, r, clock, n);
    ShapeNeverChanges(q, r, clock, n);
    if n >= 2 {
      assert Shapes(q, r, clock, n).0[1] == 1;
      assert ShapesAsWritten(q, r, clock, n).0[1] == 0;
    }
  }

  /** The input that shows it: a fresh query work asked for two queries
      sends shape 0 twice; the corrected one sends 0 then 1, so the second
      and third filters are never run as written. */
  lemma SecondQueryRepeatsShape(r: Rand, clock: nat -> int)
    ensures var q := IIBenchQuery("iibench", "purchases_index", 0, 0);
      ShapesAsWritten(q, r, clock, 2).0 == [0, 0] && Shapes(q, r, clock, 2).0 == [0, 1]
  {
    var q := IIBenchQuery("iibench", "purchases_index", 0, 0);
    ShapeNeverChanges(q, r, clock, 2);
    ShapesCycle(q, r, clock, 2);
    var asWritten := ShapesAsWritten(q, r, clock, 2).0;
    var corrected := Shapes(q, r, clock, 2).0;
    assert asWritten[0] == 0 && asWritten[1] == 0;
    assert corrected[0] == 0 && corrected[1] == 1;
  }
}
