/**
 * Two concrete runs of the search, worked out trial by trial.
 */
module Scenarios {
  import opened Wrappers
  import opened Workload
  import opened Kernel
  import opened Search
  import opened SearchProperties
  import opened OmpAutotune

  /** A trial whose first `crypt_all` call already reaches the crypt floor and
      the sample time makes exactly that one call. */
  lemma OneCallTrial(env: Env, n: nat)
    requires Progressing(env)
    requires env.count(n, 0) >= Before(env, n).minCrypts && env.lap(n, 0) >= SampleTime
    ensures TrialAt(env, n) == Sample(env.count(n, 0), env.lap(n, 0), 1)
  {
  }

  /** The state after trial `n + 1` when that trial makes one call. */
  lemma NextJudged(env: Env, n: nat, j: Tuning)
    requires Progressing(env) && Judged(env, n) == j
    requires env.count(n + 1, 0) >= j.minCrypts && env.lap(n + 1, 0) >= SampleTime
    ensures Judged(env, n + 1) == Judge(j.(scale := 2 * j.scale), Sample(env.count(n + 1, 0), env.lap(n + 1, 0), 1))
  {
    OneCallTrial(env, n + 1);
  }

  /** Four threads, one key per thread: throughputs 1000, 2100, 2150 and 2140
      at scales 1, 2, 4 and 8, then 2140 again, every trial under 100 ms. */
  function PlateauEnv(): Env
  {
    Env((t: nat, k: nat) => if t == 0 then 10 else if t == 1 then 21 else if t == 2 then 43 else 107,
        (t: nat, k: nat) => if t <= 1 then 10_000 else if t == 2 then 20_000 else 50_000)
  }

  /** The first three trials of the plateau scenario: scale 2 doubles the
      throughput and is accepted, scale 4 gains less than 5% and is not. */
  lemma PlateauOpening()
    ensures Progressing(PlateauEnv())
    ensures forall m: nat :: m < 3 ==> !StopsAfter(PlateauEnv(), m)
    ensures Judged(PlateauEnv(), 2) == Tuning(4, 2, 2100, 1, 43)
  {
    var env := PlateauEnv();
    OneCallTrial(env, 0);
    assert Judged(env, 0) == Tuning(1, 1, 1000, 0, 10);
    NextJudged(env, 0, Tuning(1, 1, 1000, 0, 10));
    assert Judged(env, 1) == Tuning(2, 2, 2100, 0, 21);
    NextJudged(env, 1, Tuning(2, 2, 2100, 0, 21));
    assert Judged(env, 2) == Tuning(4, 2, 2100, 1, 43);
  }

  /** Scale 2 wins (scale 4 gains only 2.4%, scale 8 loses), the search stops
      after the fourth non-gaining trial at scale 32, and the call answers
      4 * 2 = 8. */
  lemma PlateauScenario()
    ensures Progressing(PlateauEnv())
    ensures FirstStop(PlateauEnv(), 5)
    ensures Judged(PlateauEnv(), 5).bestScale == 2 && 4 * Judged(PlateauEnv(), 5).bestScale == 8
  {
    var env := PlateauEnv();
    PlateauOpening();
    NextJudged(env, 2, Tuning(4, 2, 2100, 1, 43));
    assert Judged(env, 3) == Tuning(8, 2, 2100, 2, 107);
    NextJudged(env, 3, Tuning(8, 2, 2100, 2, 107));
    assert Judged(env, 4) == Tuning(16, 2, 2100, 3, 107);
    NextJudged(env, 4, Tuning(16, 2, 2100, 3, 107));
    assert Judged(env, 5) == Tuning(32, 2, 2100, 4, 107);
  }

  /** Throughputs 100000, 103000, 104000, 150000, 151000, 152000, 153000,
      154000 (every trial exactly 100 ms, which does not count as too slow). */
  function GainEnv(): Env
  {
    Env((t: nat, k: nat) =>
          if t == 0 then 10_000 else if t == 1 then 10_300 else if t == 2 then 10_400
          else if t == 3 then 15_000 else if t == 4 then 15_100 else if t == 5 then 15_200
          else if t == 6 then 15_300 else 15_400,
        (t: nat, k: nat) => 100_000)
  }

  /** The first four trials of the gain scenario: the 3% and 4% steps are
      rejected, the 50% step at scale 8 becomes the best. */
  lemma GainOpening()
    ensures Progressing(GainEnv())
    ensures forall m: nat :: m < 4 ==> !StopsAfter(GainEnv(), m)
    ensures Judged(GainEnv(), 3) == Tuning(8, 8, 150_000, 0, 15_000)
  {
    var env := GainEnv();
    OneCallTrial(env, 0);
    assert Judged(env, 0) == Tuning(1, 1, 100_000, 0, 10_000);
    NextJudged(env, 0, Tuning(1, 1, 100_000, 0, 10_000));
    assert Judged(env, 1) == Tuning(2, 1, 100_000, 1, 10_300);
    NextJudged(env, 1, Tuning(2, 1, 100_000, 1, 10_300));
    assert Judged(env, 2) == Tuning(4, 1, 100_000, 2, 10_400);
    NextJudged(env, 2, Tuning(4, 1, 100_000, 2, 10_400));
    assert Judged(env, 3) == Tuning(8, 8, 150_000, 0, 15_000);
  }

  /** The 150000 trial at scale 8 is the first 5% gain after the first trial
      and becomes the best; three non-gaining trials after it do not stop the
      search, the fourth does. */
  lemma GainScenario()
    ensures Progressing(GainEnv())
    ensures !StopsAfter(GainEnv(), 6)
    ensures FirstStop(GainEnv(), 7) && Judged(GainEnv(), 7).bestScale == 8
  {
    var env := GainEnv();
    GainOpening();
    NextJudged(env, 3, Tuning(8, 8, 150_000, 0, 15_000));
    assert Judged(env, 4) == Tuning(16, 8, 150_000, 1, 15_100);
    NextJudged(env, 4, Tuning(16, 8, 150_000, 1, 15_100));
    assert Judged(env, 5) == Tuning(32, 8, 150_000, 2, 15_200);
    NextJudged(env, 5, Tuning(32, 8, 150_000, 2, 15_200));
    assert Judged(env, 6) == Tuning(64, 8, 150_000, 3, 15_300);
    NextJudged(env, 6, Tuning(64, 8, 150_000, 3, 15_300));
    assert Judged(env, 7) == Tuning(128, 8, 150_000, 4, 15_400);
  }

  /** The plateau run through `omp_autotune` itself, with four threads and
      one key per thread: the initial call answers 4 and scales both bounds
      to 4, the search call stops at the trial at scale 32, answers 8 and
      leaves `max_keys_per_crypt` at 8. */
  method PlateauRun() returns (first: int, second: int, maxKpc: int)
    ensures first == 4 && second == 8 && maxKpc == 8
  {
    var tuner := new Autotuner();
    var format := new Format(1, 1);
    var env := PlateauEnv();
    first := tuner.Autotune(format, None, 4, 0, env, 0);
    PlateauScenario();
    var db := Db(SaltDb([Salt(0, 1)], 1), None);
    second := tuner.Autotune(format, Some(db), 4, 1, env, 5);
    ghost var n: nat :| n <= 5 && FirstStop(env, n) && second == 4 * Judged(env, n).bestScale &&
      format.maxKpc == 1 * 4 * Judged(env, n).bestScale;
    FirstStopUnique(env, n, 5);
    maxKpc := format.maxKpc;
  }
}
