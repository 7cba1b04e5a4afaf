/**
 * The fixed-rate loop (`control/core/LoopController.java`).  Each iteration
 * runs the module's step, moves the next tick one period on and sleeps until
 * it; when the loop has fallen more than a period behind, the next tick is
 * reset to the present instead, so missed ticks are skipped rather than run
 * in a burst.  The clock readings, an interrupted sleep and a `stop()` from
 * another thread are inputs (`Tick`).
 */
module Scheduling {
  import opened Numeric

  const LongMax: int := 0x7fff_ffff_ffff_ffff
  const LongMin: int := -0x8000_0000_0000_0000
  const NanosPerSecond: real := 1_000_000_000.0
  const NanosPerMilli: int := 1_000_000

  /** Java's `(long)` cast: truncation toward zero, saturated at the ends of the long range. */
  function ToLong(x: real): (r: int)
    ensures LongMin <= r <= LongMax
    ensures LongMin <= Trunc(x) <= LongMax ==> r == Trunc(x)
    ensures LongMax < Trunc(x) ==> r == LongMax
    ensures Trunc(x) < LongMin ==> r == LongMin
  {
    var t := Trunc(x);
    if t > LongMax then LongMax else if t < LongMin then LongMin else t
  }

  /** `(long) (1e9 / hz)`; at 0 Hz the quotient is +infinity, which the cast turns into the largest long. */
  function PeriodNs(hz: real): (p: int)
    ensures hz == 0.0 ==> p == LongMax
    ensures hz > 0.0 ==> 0 <= p
    ensures hz > 0.0 && NanosPerSecond / hz < LongMax as real ==>
              p as real <= NanosPerSecond / hz < p as real + 1.0
  {
    if hz == 0.0 then LongMax else ToLong(NanosPerSecond / hz)
  }

  /** 50 Hz ticks every 20 ms, 20 Hz every 50 ms, 3 Hz every 333333333 ns (the fraction is cut off). */
  lemma PeriodExamples()
    ensures PeriodNs(50.0) == 20_000_000
    ensures PeriodNs(20.0) == 50_000_000
    ensures PeriodNs(3.0) == 333_333_333
  {
    assert Trunc(NanosPerSecond / 3.0) == 333_333_333;
  }

  /** `Thread.sleep(millis, nanos)`'s arguments for a positive wait. */
  function SleepArguments(waitNs: int): (r: (int, int))
    requires waitNs > 0
    ensures r.0 >= 0 && 0 <= r.1 < NanosPerMilli
    ensures r.0 * NanosPerMilli + r.1 == waitNs
  {
    (waitNs / NanosPerMilli, waitNs % NanosPerMilli)
  }

  /**
   * What one iteration sees from outside: the clock when the wait is
   * computed, the clock when the tick is reset, whether the sleep was
   * interrupted, and whether `stop()` was called meanwhile.
   */
  datatype Tick = Tick(now: int, later: int, interrupted: bool, stopped: bool)

  /** The outcome of one iteration: the new next tick, the time slept (0 if none) and the running flag. */
  datatype Advance = Advance(nextTickNs: int, sleptNs: int, running: bool)

  /** One iteration of `run` after the step. */
  function AdvanceTick(nextTickNs: int, periodNs: int, t: Tick): Advance {
    var due := nextTickNs + periodNs;
    var waitNs := due - t.now;
    if waitNs > 0 then Advance(due, waitNs, !t.interrupted && !t.stopped)
    else if waitNs < -periodNs then Advance(t.later, 0, !t.stopped)
    else Advance(due, 0, !t.stopped)
  }

  /**
   * The loop sleeps exactly when it is early, and then for exactly as long
   * as it is early; on time or up to one period late the tick moves on by
   * exactly one period; later than that it is reset to the present.
   */
  lemma {:induction false} AdvanceTickSpec(nextTickNs: int, periodNs: int, t: Tick)
    requires periodNs >= 0
    ensures var r := AdvanceTick(nextTickNs, periodNs, t);
            var waitNs := nextTickNs + periodNs - t.now;
            (r.sleptNs > 0 <==> waitNs > 0) && (waitNs > 0 ==> r.sleptNs == waitNs)
            && (-periodNs <= waitNs ==> r.nextTickNs == nextTickNs + periodNs)
            && (waitNs < -periodNs ==> r.nextTickNs == t.later)
            && (r.running <==> !t.stopped && !(waitNs > 0 && t.interrupted))
  {
  }

  /** With a clock that does not run backwards, the next tick is never more than one period behind. */
  lemma {:induction false} NeverMoreThanAPeriodBehind(nextTickNs: int, periodNs: int, t: Tick)
    requires periodNs >= 0 && t.now <= t.later
    ensures AdvanceTick(nextTickNs, periodNs, t).nextTickNs >= t.now - periodNs
  {
  }

  /** The iterations of `run` from a next tick over the given ticks, up to the first that stops it. */
  function Schedule(nextTickNs: int, periodNs: int, ticks: seq<Tick>): (s: seq<Advance>)
    ensures |s| <= |ticks|
    ensures forall i :: 0 <= i < |s| - 1 ==> s[i].running
    ensures |s| == |ticks| || (|s| > 0 && !s[|s| - 1].running)
    decreases |ticks|
  {
    if ticks == [] then []
    else
      var a := AdvanceTick(nextTickNs, periodNs, ticks[0]);
      if !a.running then [a] else [a] + Schedule(a.nextTickNs, periodNs, ticks[1..])
  }

  /**
   * Drift compensation: as long as no iteration ends more than one period
   * behind the ideal grid, the ticks stay exactly on it — the k-th next tick
   * is the start plus k periods.
   */
  lemma {:induction false} ScheduleStaysOnGrid(startNs: int, periodNs: int, ticks: seq<Tick>)
    requires forall i :: 0 <= i < |ticks| ==> ticks[i].now <= startNs + (i + 2) * periodNs
    ensures forall i :: 0 <= i < |Schedule(startNs, periodNs, ticks)| ==>
              Schedule(startNs, periodNs, ticks)[i].nextTickNs == startNs + (i + 1) * periodNs
    decreases |ticks|
  {
    if ticks != [] {
      var a := AdvanceTick(startNs, periodNs, ticks[0]);
      assert a.nextTickNs == startNs + periodNs;
      if a.running {
        var rest := ticks[1..];
        forall i | 0 <= i < |rest|
          ensures rest[i].now <= (startNs + periodNs) + (i + 2) * periodNs
        {
          assert rest[i] == ticks[i + 1];
          assert (startNs + periodNs) + (i + 2) * periodNs == startNs + (i + 1 + 2) * periodNs;
        }
        ScheduleStaysOnGrid(startNs + periodNs, periodNs, rest);
        var s := Schedule(startNs, periodNs, ticks);
        var t := Schedule(startNs + periodNs, periodNs, rest);
        assert s == [a] + t;
        forall i | 1 <= i < |s|
          ensures s[i].nextTickNs == startNs + (i + 1) * periodNs
        {
          assert s[i] == t[i - 1];
          assert (startNs + periodNs) + (i - 1 + 1) * periodNs == startNs + (i + 1) * periodNs;
        }
      }
    }
  }

  /** With a clock that does not run backwards, no iteration leaves the next tick more than one period behind. */
  lemma {:induction false} ScheduleNeverFallsBehind(startNs: int, periodNs: int, ticks: seq<Tick>)
    requires periodNs >= 0
    requires forall i :: 0 <= i < |ticks| ==> ticks[i].now <= ticks[i].later
    ensures forall i :: 0 <= i < |Schedule(startNs, periodNs, ticks)| ==>
              Schedule(startNs, periodNs, ticks)[i].nextTickNs >= ticks[i].now - periodNs
    decreases |ticks|
  {
    if ticks != [] {
      var a := AdvanceTick(startNs, periodNs, ticks[0]);
      NeverMoreThanAPeriodBehind(startNs, periodNs, ticks[0]);
      if a.running {
        var rest := ticks[1..];
        ScheduleNeverFallsBehind(a.nextTickNs, periodNs, rest);
        var s := Schedule(startNs, periodNs, ticks);
        var t := Schedule(a.nextTickNs, periodNs, rest);
        assert s == [a] + t;
        forall i | 1 <= i < |s|
          ensures s[i].nextTickNs >= ticks[i].now - periodNs
        {
          assert s[i] == t[i - 1] && ticks[i] == rest[i - 1];
        }
      }
    }
  }

  /** Unfolds the schedule from position `i` by one iteration. */
  lemma {:induction false} ScheduleStep(nextTickNs: int, periodNs: int, ticks: seq<Tick>, i: nat)
    requires i < |ticks|
    ensures var a := AdvanceTick(nextTickNs, periodNs, ticks[i]);
            Schedule(nextTickNs, periodNs, ticks[i..])
            == if a.running then [a] + Schedule(a.nextTickNs, periodNs, ticks[i + 1..]) else [a]
  {
    assert ticks[i..][0] == ticks[i] && ticks[i..][1..] == ticks[i + 1..];
  }

  /** One more iteration, appended to those already done, keeps them a prefix of the schedule. */
  lemma {:induction false} ScheduleAppend(done: seq<Advance>, nextTickNs: int, periodNs: int, ticks: seq<Tick>, i: nat)
    requires i < |ticks|
    ensures var a := AdvanceTick(nextTickNs, periodNs, ticks[i]);
            done + Schedule(nextTickNs, periodNs, ticks[i..])
            == if a.running then (done + [a]) + Schedule(a.nextTickNs, periodNs, ticks[i + 1..]) else done + [a]
  {
    ScheduleStep(nextTickNs, periodNs, ticks, i);
    var a := AdvanceTick(nextTickNs, periodNs, ticks[i]);
    if a.running {
      var rest := Schedule(a.nextTickNs, periodNs, ticks[i + 1..]);
      assert done + ([a] + rest) == (done + [a]) + rest;
    }
  }

  class LoopController {
    const periodNs: int
    var running: bool
    /** How many times the module's step has run. */
    var steps: nat

    constructor (hz: real)
      ensures periodNs == PeriodNs(hz) && running && steps == 0
    {
      periodNs := PeriodNs(hz);
      running := true;
      steps := 0;
    }

    method Stop()
      modifies this
      ensures !running && steps == old(steps)
    {
      running := false;
    }

    /**
     * `run()`, started at clock reading `startNs`, over as many iterations
     * as there are ticks or until it is stopped.  The step runs once per
     * iteration; its exceptions are swallowed, so they change nothing here.
     */
    method Run(startNs: int, ticks: seq<Tick>) returns (iterations: seq<Advance>)
      modifies this
      ensures old(running) ==> iterations == Schedule(startNs, periodNs, ticks)
      ensures !old(running) ==> iterations == []
      ensures steps == old(steps) + |iterations|
      ensures iterations != [] ==> running == iterations[|iterations| - 1].running
      ensures iterations == [] ==> running == old(running)
    {
      var nextTickNs := startNs;
      iterations := [];
      var i := 0;
      while running && i < |ticks|
        invariant 0 <= i <= |ticks| && |iterations| == i
        invariant steps == old(steps) + i
        invariant !old(running) ==> i == 0 && !running
        invariant i == 0 ==> running == old(running)
        invariant i > 0 ==> running == iterations[i - 1].running && nextTickNs == iterations[i - 1].nextTickNs
        invariant old(running) && running ==>
                    iterations + Schedule(nextTickNs, periodNs, ticks[i..]) == Schedule(startNs, periodNs, ticks)
        invariant old(running) && !running ==> iterations == Schedule(startNs, periodNs, ticks)
        decreases |ticks| - i
      {
        var a := Iteration(nextTickNs, ticks[i]);
        ScheduleAppend(iterations, nextTickNs, periodNs, ticks, i);
        nextTickNs := a.nextTickNs;
        iterations := iterations + [a];
        i := i + 1;
      }
    }

    /** The body of `run`'s loop: the step, the move to the next tick, and the sleep or the reset. */
    method Iteration(nextTickNs: int, t: Tick) returns (a: Advance)
      requires running
      modifies this
      ensures a == AdvanceTick(nextTickNs, periodNs, t)
      ensures running == a.running && steps == old(steps) + 1
    {
      steps := steps + 1;
      var next := nextTickNs + periodNs;
      var waitNs := next - t.now;
      var slept := 0;
      if waitNs > 0 {
        var (millis, nanos) := SleepArguments(waitNs);
        slept := waitNs;
        if t.interrupted {
          running := false;
        }
      } else if waitNs < -periodNs {
        next := t.later;
      }
      if t.stopped {
        running := false;
      }
      a := Advance(next, slept, running);
    }
  }
}
