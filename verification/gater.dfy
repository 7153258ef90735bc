/** The per-worker rate limiter of benchmark.go (operationGater). Time is an
    abstract clock counting nanoseconds; the only thing that advances it
    inside a gate call is the sleep, and between gate calls the work itself
    advances it by an amount the caller supplies. */
module Gating {
  import opened Runtime
  import opened Arith

  /** operationGater: the start of the current window and the operations
      counted in it. */
  datatype Gater = Gater(t0: int, currOps: nat)

  /** What one gate call leaves behind: the new gater, how long it slept and
      the clock after the sleep. */
  datatype GateStep = GateStep(gater: Gater, slept: nat, clock: nat)

  /** Gating is on only when both the interval and the per-interval budget
      are positive. */
  predicate Enabled(opsPerInterval: nat, intervalInSeconds: nat) {
    intervalInSeconds > 0 && opsPerInterval > 0
  }

  /** time.Duration(IntervalInSeconds) * time.Second: the uint64 count is
      reinterpreted as an int64 and the product wraps, so an interval of
      about 292 years or more gives a period that is zero or negative. */
  function Period(intervalInSeconds: nat): (p: int64)
    ensures intervalInSeconds * Second < TWO_63 ==> p == intervalInSeconds * Second
  {
    WrapInt64(WrapInt64(intervalInSeconds) * Second)
  }

  /** now.Sub(t0): the difference, saturated to the range of a Duration. */
  function Elapsed(t0: int, now: int): int64 {
    if now - t0 >= TWO_63 then TWO_63 - 1
    else if now - t0 < -TWO_63 then -TWO_63
    else now - t0
  }

  /** operationGater.gateOperations, called with the clock reading `now`
      taken just before the check. */
  function Gate(o: Gater, opsPerInterval: nat, intervalInSeconds: nat, now: nat): (s: GateStep)
    // the call counts itself first, so the counter either grows by one or is reset
    ensures s.gater.currOps == o.currOps + 1 || s.gater.currOps == 0
    ensures s.gater.currOps == 0 <==> Enabled(opsPerInterval, intervalInSeconds) && o.currOps + 1 >= opsPerInterval
    // the clock only moves by the sleep
    ensures s.clock == now + s.slept
    // without gating nothing but the counter changes
    ensures !Enabled(opsPerInterval, intervalInSeconds) ==> s.slept == 0 && s.gater.t0 == o.t0
    // on a reset the sleep is the rest of the period, if any is left; otherwise there is none
    ensures o.t0 <= now ==> s.slept == (if s.gater.currOps == 0 && Period(intervalInSeconds) > now - o.t0
      then Period(intervalInSeconds) - (now - o.t0) else 0)
    // without a reset only the counter moves
    ensures s.gater.currOps != 0 ==> s.gater == Gater(o.t0, o.currOps + 1) && s.slept == 0
    // a reset starts the new window after the sleep, at least a period after the old one
    ensures s.gater.currOps == 0 ==> s.gater.t0 == s.clock
    ensures s.gater.currOps == 0 && o.t0 <= now ==> s.clock >= o.t0 + Period(intervalInSeconds)
    // the budget invariant of an enabled gater is kept
    ensures Enabled(opsPerInterval, intervalInSeconds) && o.currOps < opsPerInterval ==> s.gater.currOps < opsPerInterval
  {
    var currOps := o.currOps + 1;
    var period := Period(intervalInSeconds);
    if Enabled(opsPerInterval, intervalInSeconds) && currOps >= opsPerInterval then
      var elapsed := Elapsed(o.t0, now);
      // period - elapsed is positive here; at 2^63 or more the int64
      // subtraction wraps negative and time.Sleep returns at once
      var slept: nat := if period > elapsed && period - elapsed < TWO_63 then period - elapsed else 0;
      GateStep(Gater(now + slept, 0), slept, now + slept)
    else
      GateStep(Gater(o.t0, currOps), 0, now)
  }

  /** The state a gated loop has reached: the gater, the clock and how many
      windows were closed (how many times the gater reset). */
  datatype Progress = Progress(gater: Gater, clock: nat, resets: nat)

  /** One round's gate call, `now` being the clock once the work is done;
      a reset closes one more window. */
  function Round(p: Progress, opsPerInterval: nat, intervalInSeconds: nat, now: nat): Progress {
    var s := Gate(p.gater, opsPerInterval, intervalInSeconds, now);
    Progress(s.gater, s.clock, if s.gater.currOps == 0 then p.resets + 1 else p.resets)
  }

  /** k rounds of "do the work, then gate", starting at `clock`; round i's
      work takes workTime(i) nanoseconds. This is the loop body both runners
      of benchmark.go share. */
  function Rounds(o: Gater, opsPerInterval: nat, intervalInSeconds: nat, clock: nat, workTime: nat -> nat, k: nat): (p: Progress)
    ensures p.clock >= clock
  {
    if k == 0 then Progress(o, clock, 0)
    else
      var p := Rounds(o, opsPerInterval, intervalInSeconds, clock, workTime, k - 1);
      Round(p, opsPerInterval, intervalInSeconds, p.clock + workTime(k - 1))
  }

  /** One more round gates once more, after that round's work. */
  lemma RoundsStep(o: Gater, opsPerInterval: nat, intervalInSeconds: nat, clock: nat, workTime: nat -> nat, k: nat)
    requires k > 0
    ensures var p := Rounds(o, opsPerInterval, intervalInSeconds, clock, workTime, k - 1);
      var s := Gate(p.gater, opsPerInterval, intervalInSeconds, p.clock + workTime(k - 1));
      Rounds(o, opsPerInterval, intervalInSeconds, clock, workTime, k)
        == Progress(s.gater, s.clock, if s.gater.currOps == 0 then p.resets + 1 else p.resets)
  {
  }

  /** The accounting behind the rate limit: after k rounds from a fresh
      gater, the k operations are the full windows plus the open one, the
      open one holds fewer than the budget, and every closed window started
      at least one period after the previous one. */
  lemma {:induction false} RoundsAccounting(start: nat, opsPerInterval: nat, intervalInSeconds: nat, workTime: nat -> nat, k: nat)
    requires Enabled(opsPerInterval, intervalInSeconds)
    ensures var p := Rounds(Gater(start, 0), opsPerInterval, intervalInSeconds, start, workTime, k);
      && k == p.resets * opsPerInterval + p.gater.currOps
      && p.gater.currOps < opsPerInterval
      && start + p.resets * Period(intervalInSeconds) <= p.gater.t0 <= p.clock
  {
    if k > 0 {
      RoundsAccounting(start, opsPerInterval, intervalInSeconds, workTime, k - 1);
      var p := Rounds(Gater(start, 0), opsPerInterval, intervalInSeconds, start, workTime, k - 1);
      var s := Gate(p.gater, opsPerInterval, intervalInSeconds, p.clock + workTime(k - 1));
      var q := Rounds(Gater(start, 0), opsPerInterval, intervalInSeconds, start, workTime, k);
      RoundsStep(Gater(start, 0), opsPerInterval, intervalInSeconds, start, workTime, k);
      AccountingStep(p, s, q, opsPerInterval, Period(intervalInSeconds), start, k);
    }
  }

  /** The accounting survives one gate call that either counts the
      operation or closes the window at least a period after it opened. */
  lemma AccountingStep(p: Progress, s: GateStep, q: Progress, n: nat, period: int, start: int, k: nat)
    requires k > 0 && k - 1 == p.resets * n + p.gater.currOps && p.gater.currOps < n
    requires start + p.resets * period <= p.gater.t0 <= p.clock <= s.clock
    requires s.gater.currOps == 0 <==> p.gater.currOps + 1 >= n
    requires s.gater.currOps != 0 ==> s.gater == Gater(p.gater.t0, p.gater.currOps + 1)
    requires s.gater.currOps == 0 ==> s.gater.t0 == s.clock >= p.gater.t0 + period
    requires q == Progress(s.gater, s.clock, if s.gater.currOps == 0 then p.resets + 1 else p.resets)
    ensures k == q.resets * n + q.gater.currOps
    ensures q.gater.currOps < n
    ensures start + q.resets * period <= q.gater.t0 <= q.clock
  {
    if s.gater.currOps == 0 {
      WindowClosed(p.resets, n, period);
    }
  }

  lemma WindowClosed(r: nat, n: nat, period: int)
    ensures (r + 1) * n == r * n + n
    ensures (r + 1) * period == r * period + period
  {
  }

  /** The throughput bound: however fast the work is, a worker gated at N
      operations per period of T seconds has completed at most
      N * (elapsed / T + 1) operations once `elapsed` nanoseconds have passed,
      i.e. at most N per period plus the window still open. This needs a
      positive period; UnthrottledRounds covers the wrapped one. */
  lemma ThroughputBound(start: nat, opsPerInterval: nat, intervalInSeconds: nat, workTime: nat -> nat, k: nat)
    requires Enabled(opsPerInterval, intervalInSeconds) && Period(intervalInSeconds) > 0
    ensures var p := Rounds(Gater(start, 0), opsPerInterval, intervalInSeconds, start, workTime, k);
      k < opsPerInterval * ((p.clock - start) / Period(intervalInSeconds) + 1)
  {
    RoundsAccounting(start, opsPerInterval, intervalInSeconds, workTime, k);
    var p := Rounds(Gater(start, 0), opsPerInterval, intervalInSeconds, start, workTime, k);
    var period: nat := Period(intervalInSeconds);
    ResetsFit(p.resets, period, p.clock - start);
    CountBound(k, p.resets, p.gater.currOps, opsPerInterval, (p.clock - start) / period);
  }

  lemma CountBound(k: nat, r: nat, c: nat, n: nat, w: nat)
    requires k == r * n + c && c < n && r <= w
    ensures k < n * (w + 1)
  {
    MulMono(r + 1, w + 1, n);
  }

  lemma ResetsFit(r: nat, period: nat, elapsed: nat)
    requires period > 0 && r * period <= elapsed
    ensures r <= elapsed / period
  {
    if r > elapsed / period {
      assert elapsed < (elapsed / period + 1) * period;
      MulMono(elapsed / period + 1, r, period);
    }
  }

  /** An interval of 2^64 - 1 seconds, what a negative -insertInterval
      becomes in the unsigned flag, wraps to a period of minus one second. */
  lemma PeriodOfMaxInterval()
    ensures Period(TWO_64 - 1) == -(Second as int)
  {
    assert WrapInt64(TWO_64 - 1) == -1;
  }

  /** Once the period has wrapped to zero or below, an enabled gater still
      resets its counter but never sleeps: the clock advances by the work
      alone, so nothing is throttled. */
  lemma {:induction false} UnthrottledRounds(start: nat, opsPerInterval: nat, intervalInSeconds: nat, workTime: nat -> nat, k: nat)
    requires Enabled(opsPerInterval, intervalInSeconds) && Period(intervalInSeconds) <= 0
    ensures var p := Rounds(Gater(start, 0), opsPerInterval, intervalInSeconds, start, workTime, k);
      p.clock == start + WorkTotal(workTime, k) && start <= p.gater.t0 <= p.clock
  {
    if k > 0 {
      UnthrottledRounds(start, opsPerInterval, intervalInSeconds, workTime, k - 1);
      RoundsStep(Gater(start, 0), opsPerInterval, intervalInSeconds, start, workTime, k);
    }
  }

  /** With gating off, k rounds never sleep and never move the window start:
      the clock advances by the work alone and the counter counts every
      round. */
  lemma {:induction false} UngatedRounds(o: Gater, opsPerInterval: nat, intervalInSeconds: nat, clock: nat, workTime: nat -> nat, k: nat)
    requires !Enabled(opsPerInterval, intervalInSeconds)
    ensures var p := Rounds(o, opsPerInterval, intervalInSeconds, clock, workTime, k);
      p.gater == Gater(o.t0, o.currOps + k) && p.resets == 0 && p.clock == clock + WorkTotal(workTime, k)
  {
    if k > 0 {
      UngatedRounds(o, opsPerInterval, intervalInSeconds, clock, workTime, k - 1);
    }
  }

  /** Total time spent in the first k operations. */
  function WorkTotal(workTime: nat -> nat, k: nat): nat {
    if k == 0 then 0 else WorkTotal(workTime, k - 1) + workTime(k - 1)
  }
}
