/** The runner of benchmark.go: the configuration check, the two kinds of
    worker loop and the dispatch and quit decisions of Run. Goroutines,
    channels and the reporter are not modelled; each worker is described by
    the sequence of calls it makes on its Work. */
module Benchmark {
  import opened Runtime
  import opened Gating

  /** Stats: the counters one operation reports. */
  datatype Stats = Stats(inserts: nat, deletes: nat, updates: nat, queries: nat, operations: nat, errors: nat)

  const NoStats: Stats := Stats(0, 0, 0, 0, 0, 0)

  /** WorkInfo: a work, its rate limit and its operation budget. The work
      itself is a type parameter: the runner never looks inside it. */
  datatype WorkInfo<W> = WorkInfo(work: W, opsPerInterval: uint64, intervalInSeconds: uint64, maxOps: uint64)

  // ---------------------------------------------------------------------
  // verifyWorks

  /** Work i breaks the run's mode: a run of duration d <= 0 needs every
      work to be finite (MaxOps > 0), a timed run needs every work to be
      unbounded (MaxOps == 0). */
  predicate Offends<W>(w: WorkInfo<W>, d: int) {
    if d <= 0 then w.maxOps <= 0 else w.maxOps > 0
  }

  predicate Consistent<W>(works: seq<WorkInfo<W>>, d: int) {
    forall i | 0 <= i < |works| :: !Offends(works[i], d)
  }

  /** verifyWorks: log.Fatal names the first offending work. */
  datatype Verdict = Accepted | RejectedAt(index: nat)

  method VerifyWorks<W>(works: seq<WorkInfo<W>>, d: int) returns (v: Verdict)
    ensures v.Accepted? <==>
      || (d <= 0 && forall i | 0 <= i < |works| :: works[i].maxOps > 0)
      || (d > 0 && forall i | 0 <= i < |works| :: works[i].maxOps == 0)
    ensures v.RejectedAt? ==> v.index < |works| && Offends(works[v.index], d)
    ensures v.RejectedAt? ==> forall j | 0 <= j < v.index :: !Offends(works[j], d)
  {
    if d <= 0 {
      var i := 0;
      while i < |works|
        invariant 0 <= i <= |works|
        invariant forall j | 0 <= j < i :: works[j].maxOps > 0
      {
        if works[i].maxOps <= 0 {
          return RejectedAt(i);
        }
        i := i + 1;
      }
    } else {
      var i := 0;
      while i < |works|
        invariant 0 <= i <= |works|
        invariant forall j | 0 <= j < i :: works[j].maxOps == 0
      {
        if works[i].maxOps > 0 {
          return RejectedAt(i);
        }
        i := i + 1;
      }
    }
    return Accepted;
  }

  /** A configuration mixing a finite and an unbounded work is rejected
      whatever the duration. */
  lemma MixedRejected<W>(works: seq<WorkInfo<W>>, d: int, i: nat, j: nat)
    requires i < |works| && j < |works|
    requires works[i].maxOps == 0 && works[j].maxOps > 0
    ensures !Consistent(works, d)
  {
    if d <= 0 {
      assert Offends(works[i], d);
    } else {
      assert Offends(works[j], d);
    }
  }

  // ---------------------------------------------------------------------
  // the two runners

  /** The calls a runner makes: Work.Do, a gate, and the final Work.Close. */
  datatype Event = Do | Gate | Close

  /** n rounds of Do followed by a gate. */
  function DoGateRounds(n: nat): (t: seq<Event>)
    ensures |t| == 2 * n
    ensures forall i | 0 <= i < n :: t[2 * i] == Do && t[2 * i + 1] == Gate
  {
    if n == 0 then [] else DoGateRounds(n - 1) + [Do, Gate]
  }

  function CountOf(t: seq<Event>, e: Event): nat {
    if t == [] then 0 else CountOf(t[..|t| - 1], e) + (if t[|t| - 1] == e then 1 else 0)
  }

  lemma CountOfAppend(a: seq<Event>, b: seq<Event>, e: Event)
    ensures CountOf(a + b, e) == CountOf(a, e) + CountOf(b, e)
  {
    if b == [] {
      assert a + b == a;
    } else {
      var ab := a + b;
      assert ab[..|ab| - 1] == a + b[..|b| - 1];
      assert ab[|ab| - 1] == b[|b| - 1];
      CountOfAppend(a, b[..|b| - 1], e);
    }
  }

  /** A worker that stopped after n rounds called Do n times, gated n times
      and closed its work once, at the very end. */
  lemma {:induction false} WorkerTraceCounts(n: nat)
    ensures CountOf(DoGateRounds(n) + [Close], Do) == n
    ensures CountOf(DoGateRounds(n) + [Close], Gate) == n
    ensures CountOf(DoGateRounds(n) + [Close], Close) == 1
  {
    if n > 0 {
      WorkerTraceCounts(n - 1);
      CountOfAppend(DoGateRounds(n - 1), [Do, Gate], Do);
      CountOfAppend(DoGateRounds(n - 1), [Do, Gate], Gate);
      CountOfAppend(DoGateRounds(n - 1), [Do, Gate], Close);
      CountOfAppend(DoGateRounds(n - 1), [Close], Do);
      CountOfAppend(DoGateRounds(n - 1), [Close], Gate);
      CountOfAppend(DoGateRounds(n - 1), [Close], Close);
      CountOfAppend(DoGateRounds(n), [Close], Do);
      CountOfAppend(DoGateRounds(n), [Close], Gate);
      CountOfAppend(DoGateRounds(n), [Close], Close);
      assert CountOf([Do, Gate], Do) == 1 && CountOf([Do, Gate], Gate) == 1 && CountOf([Do, Gate], Close) == 0;
    }
  }

  /** What a runner leaves behind: the calls it made, its gater and the
      clock when it returned. */
  datatype WorkerRun = WorkerRun(trace: seq<Event>, gater: Gater, clock: nat)

  /** The shared loop: n rounds of Do, then a gate; the clock starts at
      `start`, and round i's Do takes workTime(i). */
  method Loop<W>(w: WorkInfo<W>, start: nat, workTime: nat -> nat, n: nat) returns (r: WorkerRun)
    ensures r.trace == DoGateRounds(n) + [Close]
    ensures var p := Rounds(Gater(start, 0), w.opsPerInterval, w.intervalInSeconds, start, workTime, n);
      r.gater == p.gater && r.clock == p.clock
  {
    var o := Gater(start, 0);
    var clock: nat := start;
    var trace: seq<Event> := [];
    var k := 0;
    var resets: nat := 0;
    while k < n
      invariant k <= n
      invariant trace == DoGateRounds(k)
      invariant Rounds(Gater(start, 0), w.opsPerInterval, w.intervalInSeconds, start, workTime, k) == Progress(o, clock, resets)
    {
      trace := trace + [Do];
      clock := clock + workTime(k);
      var p := Gating.Round(Progress(o, clock, resets), w.opsPerInterval, w.intervalInSeconds, clock);
      trace := trace + [Gate];
      o, clock, resets := p.gater, p.clock, p.resets;
      k := k + 1;
    }
    trace := trace + [Close];
    return WorkerRun(trace, o, clock);
  }

  /** runFiniteWorker: exactly MaxOps rounds, then Close; fatal when the
      work has no operation budget. */
  method RunFiniteWorker<W>(w: WorkInfo<W>, start: nat, workTime: nat -> nat) returns (r: Outcome<WorkerRun>)
    ensures r.Fatal? <==> w.maxOps == 0
    ensures !r.Panic?
    ensures r.Ok? ==> r.value.trace == DoGateRounds(w.maxOps) + [Close]
  {
    if w.maxOps <= 0 {
      return Fatal("calling runFiniteWorker with w.MaxOps <= 0");
    }
    var run := Loop(w, start, workTime, w.maxOps);
    return Ok(run);
  }

  /** runTimeBasedWorker: before each round the quit channel is polled; the
      poll of round `quitAt` is the first to find the quit message. Fatal
      when the work has an operation budget. */
  method RunTimeBasedWorker<W>(w: WorkInfo<W>, start: nat, workTime: nat -> nat, quitAt: nat) returns (r: Outcome<WorkerRun>)
    ensures r.Fatal? <==> w.maxOps > 0
    ensures !r.Panic?
    ensures r.Ok? ==> r.value.trace == DoGateRounds(quitAt) + [Close]
  {
    if w.maxOps > 0 {
      return Fatal("calling runTimeBasedWorker with w.MaxOps > 0");
    }
    var run := Loop(w, start, workTime, quitAt);
    return Ok(run);
  }

  // ---------------------------------------------------------------------
  // Run

  datatype RunnerKind = TimeBased | Finite

  /** One worker of a run: which runner drove it, whether Run sent it the
      quit message, and what it did. */
  datatype Worker = Worker(kind: RunnerKind, quitSent: bool, run: WorkerRun)

  /** The sequential decisions of Run: verifyWorks, then one runner per work
      chosen by MaxOps, then the quit messages. quitAt(i) is the round at
      which worker i sees its quit message, workTime(i) the cost of its
      rounds, and start the clock when the workers are started. */
  method Run<W>(works: seq<WorkInfo<W>>, d: int, start: nat, workTime: nat -> nat -> nat, quitAt: nat -> nat)
    returns (r: Outcome<seq<Worker>>)
    ensures r.Ok? <==> Consistent(works, d)
    ensures !r.Panic?
    ensures r.Ok? ==> |r.value| == |works|
    ensures r.Ok? ==> forall i | 0 <= i < |works| ::
      && (r.value[i].kind == TimeBased <==> works[i].maxOps == 0)
      && (r.value[i].quitSent <==> r.value[i].kind == TimeBased)
      && r.value[i].run.trace == DoGateRounds(if works[i].maxOps == 0 then quitAt(i) else works[i].maxOps) + [Close]
  {
    var v := VerifyWorks(works, d);
    if v.RejectedAt? {
      return Fatal("benchmark time and MaxOps disagree");
    }
    var workers: seq<Worker> := [];
    var i := 0;
    while i < |works|
      invariant 0 <= i <= |works|
      invariant |workers| == i
      invariant forall j | 0 <= j < i ::
        && (workers[j].kind == TimeBased <==> works[j].maxOps == 0)
        && !workers[j].quitSent
        && workers[j].run.trace == DoGateRounds(if works[j].maxOps == 0 then quitAt(j) else works[j].maxOps) + [Close]
    {
      if works[i].maxOps <= 0 {
        var out := RunTimeBasedWorker(works[i], start, workTime(i), quitAt(i));
        workers := workers + [Worker(TimeBased, false, out.value)];
      } else {
        var out := RunFiniteWorker(works[i], start, workTime(i));
        workers := workers + [Worker(Finite, false, out.value)];
      }
      i := i + 1;
    }
    // time.Sleep(d), then the quit messages, to the time-based workers only
    var j := 0;
    while j < |works|
      invariant 0 <= j <= |works|
      invariant |workers| == |works|
      invariant forall k | 0 <= k < |works| ::
        && (workers[k].kind == TimeBased <==> works[k].maxOps == 0)
        && (workers[k].quitSent <==> k < j && workers[k].kind == TimeBased)
        && workers[k].run.trace == DoGateRounds(if works[k].maxOps == 0 then quitAt(k) else works[k].maxOps) + [Close]
    {
      if works[j].maxOps <= 0 {
        workers := workers[j := workers[j].(quitSent := true)];
      }
      j := j + 1;
    }
    return Ok(workers);
  }

  /** Total Do calls over all workers. */
  function TotalDo(ws: seq<Worker>): nat {
    if ws == [] then 0 else TotalDo(ws[..|ws| - 1]) + CountOf(ws[|ws| - 1].run.trace, Do)
  }

  function TotalMaxOps<W>(works: seq<WorkInfo<W>>): nat {
    if works == [] then 0 else TotalMaxOps(works[..|works| - 1]) + works[|works| - 1].maxOps
  }

  /** Fan-in of a finite run: when every work is finite, the workers
      together call Do exactly as often as their budgets add up to; each
      Do that reports one operation therefore yields that many records. */
  lemma {:induction false} FiniteRunDoTotal<W>(works: seq<WorkInfo<W>>, ws: seq<Worker>)
    requires |ws| == |works|
    requires forall i | 0 <= i < |works| :: works[i].maxOps > 0
    requires forall i | 0 <= i < |works| :: ws[i].run.trace == DoGateRounds(works[i].maxOps) + [Close]
    ensures TotalDo(ws) == TotalMaxOps(works)
  {
    if works != [] {
      var n := |works| - 1;
      FiniteRunDoTotal(works[..n], ws[..n]);
      WorkerTraceCounts(works[n].maxOps);
    }
  }
}
