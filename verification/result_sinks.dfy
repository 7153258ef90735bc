/** The result managers the benchmarks hand to the runner: SysbenchResult
    (benchmarks/sysbench/sysbench.go) and IIBenchResult
    (benchmarks/iibench/iibench.go and mongotools/iibenchtools.go, which are
    identical). Each keeps two counters with a snapshot of each: results are
    added to the totals, and a periodic report prints the growth since the
    last report and then takes a new snapshot. The counters are uint64 in the
    source; the model counts with unbounded integers. */
module ResultSinks {
  import opened Runtime
  import opened Benchmark

  /** One counter and the value it had at the last report. */
  datatype Tally = Tally(num: nat, last: nat)
  {
    /** The snapshot never runs ahead of the counter. */
    predicate Valid() {
      last <= num
    }
  }

  const Fresh: Tally := Tally(0, 0)

  function Add(t: Tally, x: nat): (t': Tally)
    ensures t'.num == t.num + x && t'.last == t.last
    ensures t.Valid() ==> t'.Valid()
  {
    Tally(t.num + x, t.last)
  }

  /** What a report prints for one counter, and the counter afterwards:
      `num - last`, then `last = num`. */
  function Report(t: Tally): (res: (int, Tally))
    ensures res.1 == Tally(t.num, t.num) && res.1.Valid()
    ensures t.Valid() <==> res.0 >= 0
    ensures res.0 + t.last == t.num
  {
    (t.num - t.last, Tally(t.num, t.num))
  }

  /** What happens to a counter over a run: a result is registered, or a
      report is printed. */
  datatype Step = Register(amount: nat) | Print

  /** A counter driven through a run from `t`, with the deltas it printed. */
  function Drive(t: Tally, steps: seq<Step>): (res: (seq<int>, Tally))
    ensures t.Valid() ==> res.1.Valid()
  {
    if |steps| == 0 then ([], t)
    else
      var (printed, t1) := Drive(t, steps[..|steps| - 1]);
      match steps[|steps| - 1]
      case Register(x) => (printed, Add(t1, x))
      case Print =>
        var (delta, t2) := Report(t1);
        (printed + [delta], t2)
  }

  function Sum(xs: seq<int>): int {
    if |xs| == 0 then 0 else Sum(xs[..|xs| - 1]) + xs[|xs| - 1]
  }

  /** The total registered over a run. */
  function Registered(steps: seq<Step>): nat {
    if |steps| == 0 then 0
    else Registered(steps[..|steps| - 1]) + (if steps[|steps| - 1].Register? then steps[|steps| - 1].amount else 0)
  }

  /** The reports telescope: from a fresh counter, the counter holds
      everything registered, and the printed deltas add up to the snapshot,
      i.e. to the total at the last report. */
  lemma {:induction false} ReportsTelescope(steps: seq<Step>)
    ensures var (printed, t) := Drive(Fresh, steps);
      t.num == Registered(steps) && Sum(printed) == t.last
  {
    if |steps| > 0 {
      ReportsTelescope(steps[..|steps| - 1]);
      var (printed, t1) := Drive(Fresh, steps[..|steps| - 1]);
      if steps[|steps| - 1].Print? {
        var (delta, t2) := Report(t1);
        assert (printed + [delta])[..|printed + [delta]| - 1] == printed;
      }
    }
  }

  /** A run that ends with a report has printed everything registered. */
  lemma ReportedAll(steps: seq<Step>)
    requires |steps| > 0 && steps[|steps| - 1] == Print
    ensures Sum(Drive(Fresh, steps).0) == Registered(steps)
  {
    ReportsTelescope(steps);
    ReportsTelescope(steps[..|steps| - 1]);
  }

  /** SysbenchResult. */
  datatype SysbenchResult = SysbenchResult(transactions: Tally, errors: Tally)

  /** IIBenchResult. */
  datatype IIBenchResult = IIBenchResult(inserts: Tally, queries: Tally)

  /** The line PrintResults prints: the growth and the total of each
      counter. */
  datatype Line = Line(lastFirst: int, totalFirst: nat, lastSecond: int, totalSecond: nat)

  /** SysbenchResult.RegisterIntermedieteResult: a result counts its
      operations as transactions and its errors as errors. */
  function RegisterSysbench(r: SysbenchResult, s: Stats): (r': SysbenchResult)
    ensures r'.transactions == Add(r.transactions, s.operations)
    ensures r'.errors == Add(r.errors, s.errors)
  {
    SysbenchResult(Add(r.transactions, s.operations), Add(r.errors, s.errors))
  }

  /** SysbenchResult.PrintResults. */
  function PrintSysbench(r: SysbenchResult): (res: (Line, SysbenchResult))
    ensures res.1.transactions == Tally(r.transactions.num, r.transactions.num)
    ensures res.1.errors == Tally(r.errors.num, r.errors.num)
    ensures res.0.lastFirst + r.transactions.last == r.transactions.num
    ensures res.0.lastSecond + r.errors.last == r.errors.num
    ensures res.0.totalFirst == r.transactions.num && res.0.totalSecond == r.errors.num
  {
    var (dt, t) := Report(r.transactions);
    var (de, e) := Report(r.errors);
    (Line(dt, r.transactions.num, de, r.errors.num), SysbenchResult(t, e))
  }

  /** SysbenchResult.PrintFinalResults: prints the totals, changes nothing. */
  function FinalSysbench(r: SysbenchResult): (res: ((nat, nat), SysbenchResult))
    ensures res.1 == r
    ensures res.0 == (r.transactions.num, r.errors.num)
  {
    ((r.transactions.num, r.errors.num), r)
  }

  /** IIBenchResult.RegisterIntermediateResult: only inserts and queries are
      counted. */
  function RegisterIIBench(r: IIBenchResult, s: Stats): (r': IIBenchResult)
    ensures r'.inserts == Add(r.inserts, s.inserts)
    ensures r'.queries == Add(r.queries, s.queries)
  {
    IIBenchResult(Add(r.inserts, s.inserts), Add(r.queries, s.queries))
  }

  /** IIBenchResult.PrintResults. */
  function PrintIIBench(r: IIBenchResult): (res: (Line, IIBenchResult))
    ensures res.1.inserts == Tally(r.inserts.num, r.inserts.num)
    ensures res.1.queries == Tally(r.queries.num, r.queries.num)
    ensures res.0.lastFirst + r.inserts.last == r.inserts.num
    ensures res.0.lastSecond + r.queries.last == r.queries.num
    ensures res.0.totalFirst == r.inserts.num && res.0.totalSecond == r.queries.num
  {
    var (di, i) := Report(r.inserts);
    var (dq, q) := Report(r.queries);
    (Line(di, r.inserts.num, dq, r.queries.num), IIBenchResult(i, q))
  }

  /** IIBenchResult.PrintFinalResults: prints the totals, changes nothing. */
  function FinalIIBench(r: IIBenchResult): (res: ((nat, nat), IIBenchResult))
    ensures res.1 == r
    ensures res.0 == (r.inserts.num, r.queries.num)
  {
    ((r.inserts.num, r.queries.num), r)
  }

  /** Registering a batch of results, in the order the runner delivers
      them. */
  function RegisterAllSysbench(r: SysbenchResult, ss: seq<Stats>): SysbenchResult {
    if |ss| == 0 then r else RegisterSysbench(RegisterAllSysbench(r, ss[..|ss| - 1]), ss[|ss| - 1])
  }

  function RegisterAllIIBench(r: IIBenchResult, ss: seq<Stats>): IIBenchResult {
    if |ss| == 0 then r else RegisterIIBench(RegisterAllIIBench(r, ss[..|ss| - 1]), ss[|ss| - 1])
  }

  /** The sum of one field over a batch of results. */
  function SumBy(f: Stats -> nat, ss: seq<Stats>): nat {
    if |ss| == 0 then 0 else SumBy(f, ss[..|ss| - 1]) + f(ss[|ss| - 1])
  }

  function Operations(s: Stats): nat { s.operations }
  function Errors(s: Stats): nat { s.errors }
  function Inserts(s: Stats): nat { s.inserts }
  function Queries(s: Stats): nat { s.queries }

  /** A batch adds its field sums to the totals and leaves the snapshots. */
  lemma {:induction false} RegisterAllSysbenchSums(r: SysbenchResult, ss: seq<Stats>)
    ensures var r' := RegisterAllSysbench(r, ss);
      && r'.transactions == Tally(r.transactions.num + SumBy(Operations, ss), r.transactions.last)
      && r'.errors == Tally(r.errors.num + SumBy(Errors, ss), r.errors.last)
  {
    if |ss| > 0 {
      RegisterAllSysbenchSums(r, ss[..|ss| - 1]);
    }
  }

  lemma {:induction false} RegisterAllIIBenchSums(r: IIBenchResult, ss: seq<Stats>)
    ensures var r' := RegisterAllIIBench(r, ss);
      && r'.inserts == Tally(r.inserts.num + SumBy(Inserts, ss), r.inserts.last)
      && r'.queries == Tally(r.queries.num + SumBy(Queries, ss), r.queries.last)
  {
    if |ss| > 0 {
      RegisterAllIIBenchSums(r, ss[..|ss| - 1]);
    }
  }

  lemma {:induction false} SumByAppend(f: Stats -> nat, a: seq<Stats>, b: seq<Stats>)
    ensures SumBy(f, a + b) == SumBy(f, a) + SumBy(f, b)
  {
    if |b| == 0 {
      assert a + b == a;
    } else {
      SumByAppend(f, a, b[..|b| - 1]);
      assert (a + b)[..|a + b| - 1] == a + b[..|b| - 1];
    }
  }

  /** Sums do not depend on the order of the batch. */
  lemma {:induction false} SumByPermutation(f: Stats -> nat, a: seq<Stats>, b: seq<Stats>)
    requires multiset(a) == multiset(b)
    ensures SumBy(f, a) == SumBy(f, b)
    decreases |a|
  {
    if |a| == 0 {
      assert |b| == |multiset(b)| == 0;
    } else {
      var x := a[|a| - 1];
      var a' := a[..|a| - 1];
      assert a == a' + [x];
      assert x in multiset(b);
      var j :| 0 <= j < |b| && b[j] == x;
      var b' := b[..j] + b[j + 1..];
      assert b == b[..j] + [x] + b[j + 1..];
      assert multiset(b) == multiset(b[..j]) + multiset{x} + multiset(b[j + 1..]);
      assert multiset(a) == multiset(a') + multiset{x};
      assert multiset(b') == multiset(b[..j]) + multiset(b[j + 1..]);
      assert multiset(a') == multiset(a) - multiset{x};
      assert multiset(b') == multiset(b) - multiset{x};
      SumByPermutation(f, a', b');
      SumByAppend(f, b[..j] + [x], b[j + 1..]);
      SumByAppend(f, b[..j], [x]);
      SumByAppend(f, b[..j], b[j + 1..]);
      SumByAppend(f, a', [x]);
      assert SumBy(f, [x]) == f(x);
    }
  }

  /** The totals of both result managers do not depend on the order in
      which the workers' results arrive. */
  lemma RegistrationOrderIrrelevant(r: SysbenchResult, q: IIBenchResult, a: seq<Stats>, b: seq<Stats>)
    requires multiset(a) == multiset(b)
    ensures RegisterAllSysbench(r, a) == RegisterAllSysbench(r, b)
    ensures RegisterAllIIBench(q, a) == RegisterAllIIBench(q, b)
  {
    RegisterAllSysbenchSums(r, a);
    RegisterAllSysbenchSums(r, b);
    RegisterAllIIBenchSums(q, a);
    RegisterAllIIBenchSums(q, b);
    SumByPermutation(Operations, a, b);
    SumByPermutation(Errors, a, b);
    SumByPermutation(Inserts, a, b);
    SumByPermutation(Queries, a, b);
  }
}
