/** The part the two sysbench loaders share (benchmarks/sysbenchload and
    benchmarks/sysbench/sysbenchload): a SysbenchWriter bundles several
    per-collection works and is run as one worker; main hands collection i
    to writer i % numWriters, and each worker takes its budget from the
    first work of its writer. */
module SysbenchWriters {
  import opened Runtime
  import opened Benchmark

  /** The collections writer j receives out of n, in the order the loop
      appends them. */
  function Members(n: nat, w: nat, j: nat): (m: seq<nat>)
    requires w > 0
    ensures |m| <= n
    ensures forall k | 0 <= k < |m| :: m[k] < n
  {
    if n == 0 then [] else Members(n - 1, w, j) + (if (n - 1) % w == j then [n - 1] else [])
  }

  /** Writer j holds exactly the collections below n that are congruent to
      j, each once and in increasing order. */
  lemma {:induction false} MembersSpec(n: nat, w: nat, j: nat)
    requires w > 0
    ensures forall i: nat :: i in Members(n, w, j) <==> i < n && i % w == j
    ensures forall a, b | 0 <= a < b < |Members(n, w, j)| :: Members(n, w, j)[a] < Members(n, w, j)[b]
  {
    if n > 0 {
      MembersSpec(n - 1, w, j);
      var m' := Members(n - 1, w, j);
      var m := Members(n, w, j);
      forall a | 0 <= a < |m'|
        ensures m'[a] < n - 1
      {
        assert m'[a] in m';
      }
      if (n - 1) % w == j {
        assert m == m' + [n - 1];
      } else {
        assert m == m';
      }
      forall i: nat
        ensures i in m <==> i < n && i % w == j
      {
        if i in m' {
          var a :| 0 <= a < |m'| && m'[a] == i;
        }
      }
    }
  }

  /** The writers partition the collections: collection i is held by
      writer i % w and by no other. */
  lemma Partition(n: nat, w: nat, i: nat, j: nat)
    requires w > 0 && i < n && j < w
    ensures i in Members(n, w, j) <==> j == i % w
  {
    MembersSpec(n, w, j);
  }

  /** With no more writers than collections every writer gets work, and its
      first collection is its own index. */
  lemma MembersStartAtIndex(n: nat, w: nat, j: nat)
    requires 0 < w && j < w && j < n
    ensures |Members(n, w, j)| > 0 && Members(n, w, j)[0] == j
  {
    MembersSpec(n, w, j);
    var m := Members(n, w, j);
    assert j in m;
    var k :| 0 <= k < |m| && m[k] == j;
    if k > 0 {
      var i := m[0];
      assert i in m;
      assert i < j && i % w == j;
      Arith.ModBelow(i, w);
    }
  }

  lemma AllStartAtIndex(n: nat, w: nat)
    requires w <= n
    ensures forall j | 0 <= j < w :: |Members(n, w, j)| > 0 && Members(n, w, j)[0] == j
  {
    forall j | 0 <= j < w
      ensures |Members(n, w, j)| > 0 && Members(n, w, j)[0] == j
    {
      MembersStartAtIndex(n, w, j);
    }
  }

  /** The assignment loop of main: collection i is appended to
      writers[i % numWriters]. A zero writer count is a division by zero as
      soon as there is a collection. */
  method Assign(n: nat, w: nat) returns (r: Outcome<seq<seq<nat>>>)
    ensures r.Panic? <==> w == 0 && n > 0
    ensures !r.Fatal?
    ensures r.Ok? ==> |r.value| == w && forall j | 0 <= j < w :: r.value[j] == Members(n, w, j)
  {
    if w == 0 {
      if n > 0 {
        return Panic("integer divide by zero");
      }
      return Ok([]);
    }
    var groups: seq<seq<nat>> := seq(w, _ => []);
    var i := 0;
    while i < n
      invariant 0 <= i <= n && |groups| == w
      invariant forall j | 0 <= j < w :: groups[j] == Members(i, w, j)
    {
      groups := groups[i % w := groups[i % w] + [i]];
      i := i + 1;
    }
    r := Ok(groups);
  }

  /** SysbenchWriter: the works it runs in turn. */
  datatype SysbenchWriter<W> = SysbenchWriter(writers: seq<WorkInfo<W>>)

  /** The works writer j receives. */
  function Group<W>(subs: seq<WorkInfo<W>>, w: nat, j: nat): (g: seq<WorkInfo<W>>)
    requires w > 0
    ensures |g| == |Members(|subs|, w, j)|
    ensures forall k | 0 <= k < |g| :: g[k] == subs[Members(|subs|, w, j)[k]]
  {
    var m := Members(|subs|, w, j);
    seq(|m|, k requires 0 <= k < |m| => subs[m[k]])
  }

  /** The worker list main builds after the assignment: worker j runs
      writer j with no rate limit, and its budget is the MaxOps of the
      first work of that writer. `make` panics on a negative writer count,
      `i % numWriters` on a zero one when there are collections, and
      `writers[j].writers[0]` on a writer left empty. */
  function Distribute<W>(numWriters: int, subs: seq<WorkInfo<W>>): (r: Outcome<seq<WorkInfo<SysbenchWriter<W>>>>)
    ensures r.Panic? <==> numWriters < 0 || (numWriters == 0 && |subs| > 0) || numWriters > |subs|
    ensures !r.Fatal?
    ensures r.Ok? ==> |r.value| == numWriters && forall j | 0 <= j < numWriters ::
      && r.value[j].work.writers == Group(subs, numWriters, j)
      && r.value[j].maxOps == subs[j].maxOps
      && r.value[j].opsPerInterval == 0 && r.value[j].intervalInSeconds == 0
  {
    if numWriters < 0 then Panic("makeslice: len out of range")
    else if numWriters == 0 && |subs| > 0 then Panic("integer divide by zero")
    else if numWriters > |subs| then Panic("index out of range [0] with length 0")
    else if numWriters == 0 then Ok([])
    else
      AllStartAtIndex(|subs|, numWriters);
      Ok(seq(numWriters, j requires 0 <= j < numWriters =>
        WorkInfo(SysbenchWriter(Group(subs, numWriters, j)), 0, 0, Group(subs, numWriters, j)[0].maxOps)))
  }

  /** The calls a SysbenchWriter makes on its works. */
  datatype Call<W> = DoOf(work: W) | CloseOf(work: W)

  /** SysbenchWriter.Do: Do on every work, in order. */
  function DoCalls<W>(s: SysbenchWriter<W>): (calls: seq<Call<W>>)
    ensures |calls| == |s.writers|
    ensures forall k | 0 <= k < |calls| :: calls[k] == DoOf(s.writers[k].work)
  {
    seq(|s.writers|, k requires 0 <= k < |s.writers| => DoOf(s.writers[k].work))
  }

  /** SysbenchWriter.Close: Close on every work, in order. */
  function CloseCalls<W>(s: SysbenchWriter<W>): (calls: seq<Call<W>>)
    ensures |calls| == |s.writers|
    ensures forall k | 0 <= k < |calls| :: calls[k] == CloseOf(s.writers[k].work)
  {
    seq(|s.writers|, k requires 0 <= k < |s.writers| => CloseOf(s.writers[k].work))
  }

  /** One round of all workers reaches every collection exactly once:
      collection i is the work at one position of one writer, the writer
      i % w. */
  lemma EveryCollectionOnce<W>(numWriters: int, subs: seq<WorkInfo<W>>, i: nat)
    requires Distribute(numWriters, subs).Ok? && i < |subs|
    ensures var ws := Distribute(numWriters, subs).value;
      && 0 < numWriters
      && (exists k :: 0 <= k < |ws[i % numWriters].work.writers| && Members(|subs|, numWriters, i % numWriters)[k] == i)
      && forall j, k | 0 <= j < numWriters && 0 <= k < |ws[j].work.writers| ::
           Members(|subs|, numWriters, j)[k] == i ==> j == i % numWriters
  {
    var w := numWriters;
    var ws := Distribute(numWriters, subs).value;
    MembersSpec(|subs|, w, i % w);
    var m := Members(|subs|, w, i % w);
    assert i in m;
    var k :| 0 <= k < |m| && m[k] == i;
    assert |ws[i % w].work.writers| == |m|;
    forall j, k | 0 <= j < w && 0 <= k < |ws[j].work.writers|
      ensures Members(|subs|, w, j)[k] == i ==> j == i % w
    {
      MembersSpec(|subs|, w, j);
      assert Members(|subs|, w, j)[k] in Members(|subs|, w, j);
    }
  }
}
