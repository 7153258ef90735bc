/** benchmarks/iibench/iibench.go: the iibench document generator and query
    work. Times, prices and the queries themselves are not modelled: a
    document is its integer fields and its char fields, and a query is its
    shape and the values it was built from. The clock is a parameter giving
    nanoseconds. */
module IIBench {
  import opened Runtime
  import opened Benchmark
  import SysbenchStrings

  const MaxNumCashRegisters: nat := 1000
  const MaxNumProducts: nat := 10000
  const MaxNumCustomers: nat := 100000

  datatype Option<T> = None | Some(value: T)

  // ---------------------------------------------------------------------
  // rand_str

  const Upper: seq<byte> := "ABCDEFGHIJKLMNOPQRSTUVWXYZ"

  /** The alphabet of rand_str: digits, upper case, lower case. */
  const Alnum: seq<byte> := SysbenchStrings.Nums + Upper + SysbenchStrings.Alpha

  predicate IsAlnum(c: byte) {
    SysbenchStrings.IsDigit(c) || ('A' <= c <= 'Z') || SysbenchStrings.IsLower(c)
  }

  /** The alphabet's three blocks: digits at 0..9, upper case at 10..35,
      lower case at 36..61. */
  lemma AlnumBlocks(i: nat)
    requires i < |Alnum|
    ensures |Alnum| == 62
    ensures i < 10 ==> Alnum[i] == SysbenchStrings.Nums[i]
    ensures 10 <= i < 36 ==> Alnum[i] == Upper[i - 10]
    ensures 36 <= i ==> Alnum[i] == SysbenchStrings.Alpha[i - 36]
  {
  }

  lemma AlnumEntry(i: nat)
    requires i < |Alnum|
    ensures IsAlnum(Alnum[i])
  {
    SysbenchStrings.AlphabetsAreClasses();
    AlnumBlocks(i);
  }

  lemma AlnumHas(c: byte)
    requires IsAlnum(c)
    ensures c in Alnum
  {
    if SysbenchStrings.IsDigit(c) {
      var i := c as int - '0' as int;
      AlnumBlocks(i);
      assert Alnum[i] == c;
    } else if 'A' <= c <= 'Z' {
      var i := 10 + c as int - 'A' as int;
      AlnumBlocks(i);
      assert Alnum[i] == c;
    } else {
      var i := 36 + c as int - 'a' as int;
      AlnumBlocks(i);
      assert Alnum[i] == c;
    }
  }

  /** The alphabet is exactly the 62 ASCII letters and digits. */
  lemma AlnumIsAlphanumeric()
    ensures |Alnum| == 62
    ensures forall i | 0 <= i < |Alnum| :: IsAlnum(Alnum[i])
    ensures forall c: byte :: IsAlnum(c) ==> c in Alnum
  {
    AlnumBlocks(0);
    forall i | 0 <= i < |Alnum|
      ensures IsAlnum(Alnum[i])
    {
      AlnumEntry(i);
    }
    forall c: byte | IsAlnum(c)
      ensures c in Alnum
    {
      AlnumHas(c);
    }
  }

  /** rand_str: n draws of rand.Int31n(62), each picking a character of the
      alphabet. */
  function RandStr(n: nat, r: Rand): (res: (seq<byte>, Rand))
    ensures |res.0| == n
    ensures forall i | 0 <= i < n :: IsAlnum(res.0[i])
    ensures res.1.stream == r.stream && res.1.pos == r.pos + n
  {
    AlnumIsAlphanumeric();
    if n == 0 then ([], r)
    else
      var (prefix, r1) := RandStr(n - 1, r);
      var (k, r2) := Intn(r1, |Alnum|);
      (prefix + [Alnum[k]], r2)
  }

  /** Character i of a random string is the alphabet entry of draw i. */
  lemma {:induction false} RandStrDraws(n: nat, r: Rand, i: nat)
    requires i < n
    ensures RandStr(n, r).0[i] == Alnum[r.stream(r.pos + i) % 62]
  {
    var prev := RandStr(n - 1, r);
    var draw := Intn(prev.1, |Alnum|);
    assert RandStr(n, r).0 == prev.0 + [Alnum[draw.0]];
    if i < n - 1 {
      RandStrDraws(n - 1, r, i);
    } else {
      assert prev.1.pos == r.pos + i;
    }
  }

  // ---------------------------------------------------------------------
  // DocGenerator

  /** The integer and string fields of an iibench document. */
  datatype Doc = Doc(cashRegisterID: nat, customerID: nat, productID: nat, charFields: Option<seq<seq<byte>>>)

  datatype DocGenerator = DocGenerator(rand: Rand, numCharFields: int64, charFieldLength: int64)

  /** numCharFields random strings of the same length. */
  function CharFields(count: nat, length: nat, r: Rand): (res: (seq<seq<byte>>, Rand))
    ensures |res.0| == count
    ensures forall i | 0 <= i < count :: |res.0[i]| == length && forall j | 0 <= j < length :: IsAlnum(res.0[i][j])
    ensures res.1.stream == r.stream && res.1.pos == r.pos + count * length
  {
    if count == 0 then ([], r)
    else
      var (prefix, r1) := CharFields(count - 1, length, r);
      var (s, r2) := RandStr(length, r1);
      (prefix + [s], r2)
  }

  /** Generate: three bounded draws, one float draw for the price, then the
      char fields when there are any. A negative field length makes
      rand_str's make panic. */
  function Generate(g: DocGenerator): (r: Outcome<(Doc, Rand)>)
    ensures r.Panic? <==> g.numCharFields > 0 && g.charFieldLength < 0
    ensures !r.Fatal?
    ensures r.Ok? ==> var d := r.value.0;
      && d.cashRegisterID < MaxNumCashRegisters
      && d.customerID < MaxNumCustomers
      && d.productID < MaxNumProducts
      && (d.charFields.Some? <==> g.numCharFields > 0)
      && (d.charFields.Some? ==>
            && |d.charFields.value| == g.numCharFields
            && forall i | 0 <= i < |d.charFields.value| ::
                 |d.charFields.value[i]| == g.charFieldLength
                 && forall j | 0 <= j < g.charFieldLength :: IsAlnum(d.charFields.value[i][j]))
    ensures r.Ok? ==> var r' := r.value.1;
      // four draws, then one per character of the char fields
      && r'.stream == g.rand.stream
      && r'.pos == g.rand.pos + 4 + (if g.numCharFields > 0 then g.numCharFields * g.charFieldLength else 0)
  {
    var (crid, r1) := Intn(g.rand, MaxNumCashRegisters);
    var (cid, r2) := Intn(r1, MaxNumCustomers);
    var (pid, r3) := Intn(r2, MaxNumProducts);
    var r4 := Float64(r3);
    if g.numCharFields > 0 then
      if g.charFieldLength < 0 then Panic("makeslice: len out of range")
      else
        var (fields, r5) := CharFields(g.numCharFields, g.charFieldLength, r4);
        Ok((Doc(crid, cid, pid, Some(fields)), r5))
    else
      Ok((Doc(crid, cid, pid, None), r4))
  }

  // ---------------------------------------------------------------------
  // QueryWork

  /** QueryWork: its collection, its start time in nanoseconds and the
      number of queries it ran. */
  datatype QueryWork = QueryWork(coll: string, startTime: int, numQueriesSoFar: uint64)

  /** What one query was built from: the shape (which of the three
      filters), the customer and register ids, and the time it asks
      about. */
  datatype Query = Query(shape: nat, customerID: nat, cashRegisterID: nat, timeToQuery: int)

  /** The flags queriesPerInterval and queryInterval. */
  datatype QueryFlags = QueryFlags(queriesPerInterval: uint64, queryInterval: uint64)

  const DefaultQueryFlags: QueryFlags := QueryFlags(100, 1)

  /** NewQueryWork: a fresh counter, the query flags as the rate, no
      budget. */
  function NewQueryWork(flags: QueryFlags, coll: string, startTime: int): (w: WorkInfo<QueryWork>)
    ensures w.maxOps == 0
    ensures w.work.numQueriesSoFar == 0 && w.work.coll == coll
    ensures w.opsPerInterval == flags.queriesPerInterval && w.intervalInSeconds == flags.queryInterval
  {
    WorkInfo(QueryWork(coll, startTime, 0), flags.queriesPerInterval, flags.queryInterval, 0)
  }

  /** The result of one Do: the query, the work afterwards, the random
      source afterwards, and the record sent. */
  datatype Done = Done(query: Query, work: QueryWork, rand: Rand, sent: Stats)

  /** QueryWork.Do at clock `now`. The offset is drawn with rand.Int63n
      only when time has passed since the start; the counter is uint64 and
      is updated through the pointer receiver. */
  function Do(qw: QueryWork, r: Rand, now: int): (d: Done)
    ensures d.query.shape == qw.numQueriesSoFar % 3
    ensures d.work == qw.(numQueriesSoFar := Succ64(qw.numQueriesSoFar))
    ensures d.sent == NoStats.(queries := 1)
    ensures d.query.customerID < MaxNumCustomers && d.query.cashRegisterID < MaxNumCashRegisters
    ensures now - qw.startTime > 0 ==> qw.startTime <= d.query.timeToQuery < now
    ensures now - qw.startTime <= 0 ==> d.query.timeToQuery == qw.startTime
    ensures d.rand.stream == r.stream && d.rand.pos == r.pos + (if now - qw.startTime > 0 then 4 else 3)
  {
    var (cid, r1) := Intn(r, MaxNumCustomers);
    var (crid, r2) := Intn(r1, MaxNumCashRegisters);
    var r3 := Float64(r2);
    var since := now - qw.startTime;
    var (offset, r4) := if since > 0 then Intn(r3, since) else (0, r3);
    Done(Query(qw.numQueriesSoFar % 3, cid, crid, qw.startTime + offset),
         qw.(numQueriesSoFar := Succ64(qw.numQueriesSoFar)),
         r4, NoStats.(queries := 1))
  }

  /** n calls of Do on one work, at the clock readings clock(0), clock(1),
      ...; the shapes of the queries in order. */
  function Shapes(qw: QueryWork, r: Rand, clock: nat -> int, n: nat): (res: (seq<nat>, QueryWork, Rand))
    ensures |res.0| == n
  {
    if n == 0 then ([], qw, r)
    else
      var (shapes, w1, r1) := Shapes(qw, r, clock, n - 1);
      var d := Do(w1, r1, clock(n - 1));
      (shapes + [d.query.shape], d.work, d.rand)
  }

  /** One more call appends the shape the current counter selects and
      advances the counter. */
  lemma ShapesStep(qw: QueryWork, r: Rand, clock: nat -> int, n: nat)
    requires n > 0
    ensures var prev := Shapes(qw, r, clock, n - 1);
      && Shapes(qw, r, clock, n).0 == prev.0 + [prev.1.numQueriesSoFar % 3]
      && Shapes(qw, r, clock, n).1.numQueriesSoFar == Succ64(prev.1.numQueriesSoFar)
  {
  }

  /** From a fresh work the counter after n calls is n, and 0 once it has
      wrapped at 2^64. */
  lemma {:induction false} ShapesCount(qw: QueryWork, r: Rand, clock: nat -> int, n: nat)
    requires qw.numQueriesSoFar == 0 && n <= TWO_64
    ensures Shapes(qw, r, clock, n).1.numQueriesSoFar == if n < TWO_64 then n else 0
  {
    if n > 0 {
      ShapesCount(qw, r, clock, n - 1);
      ShapesStep(qw, r, clock, n);
    }
  }

  /** The shapes cycle 0, 1, 2, 0, ... from a fresh work (up to 2^64
      queries, where the counter wraps). */
  lemma {:induction false} ShapesCycle(qw: QueryWork, r: Rand, clock: nat -> int, n: nat)
    requires qw.numQueriesSoFar == 0 && n <= TWO_64
    ensures forall k | 0 <= k < n :: Shapes(qw, r, clock, n).0[k] == k % 3
    ensures Shapes(qw, r, clock, n).1.numQueriesSoFar == if n < TWO_64 then n else 0
  {
    ShapesCount(qw, r, clock, n);
    if n > 0 {
      ShapesCycle(qw, r, clock, n - 1);
      ShapesStep(qw, r, clock, n);
      var prev := Shapes(qw, r, clock, n - 1).0;
      var last := [(n - 1) % 3];
      assert Shapes(qw, r, clock, n).0 == prev + last;
      forall k | 0 <= k < n
        ensures (prev + last)[k] == k % 3
      {
        if k < n - 1 {
          assert (prev + last)[k] == prev[k];
        }
      }
    }
  }
}
