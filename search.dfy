/**
 * Specification of the scale search: what one trial measures, how a trial is
 * judged, the state of the search after each trial, when the search stops and
 * the calls it makes on the format. Trials are numbered from 0; trial `n`
 * probes scale 2^n.
 */
module Search {
  import opened Wrappers
  import opened Workload
  import opened Kernel
  import opened Keys

  /** SAMPLE_TIME, 10 ms, in microseconds */
  const SampleTime: nat := 10_000
  /** MAX_TUNE_TIME, 100 ms, in microseconds */
  const MaxTuneTime: nat := 100_000
  /** MAX_NO_PROGRESS */
  const MaxNoProgress: nat := 3
  /** REQ_GAIN 1.05 as the ratio GainNum / GainDen */
  const GainNum: int := 105
  const GainDen: int := 100

  /** What the hash kernel and the timer report: `count(t, k)` is the count
      `crypt_all` writes back on its k-th call in trial t, and `lap(t, k)` the
      microseconds the timer advances across that call. */
  datatype Env = Env(count: (nat, nat) -> int, lap: (nat, nat) -> nat)

  /** Every `crypt_all` call computes at least one hash and takes at least one
      microsecond; without this a trial need not end. */
  ghost predicate Progressing(env: Env)
  {
    forall t: nat, k: nat :: env.count(t, k) >= 1 && env.lap(t, k) >= 1
  }

  /** From trial `horizon` on, the first `crypt_all` call of a trial alone
      outlasts MAX_TUNE_TIME: the batch keeps doubling, so the search ends. */
  ghost predicate Bounded(env: Env, horizon: nat)
  {
    forall t: nat :: t >= horizon ==> env.lap(t, 0) > MaxTuneTime
  }

  /** How far `have` is below `goal`. */
  function Gap(goal: int, have: int): nat
  {
    if have < goal then goal - have else 0
  }

  /** What one trial measured: the crypts counted, the elapsed time in
      microseconds and the number of `crypt_all` calls made. */
  datatype Sample = Sample(crypts: int, duration: nat, calls: nat)

  /** The measuring loop of trial `t` from its k-th `crypt_all` call on, with
      `crypts` counted and `elapsed` microseconds gone so far: it calls again
      while fewer than `minCrypts` crypts are counted or less than
      SAMPLE_TIME has passed. */
  function RunFrom(env: Env, t: nat, minCrypts: int, k: nat, crypts: int, elapsed: nat): (s: Sample)
    requires Progressing(env)
    ensures s.crypts >= minCrypts && s.duration >= SampleTime
    ensures s.calls > k
    ensures s.crypts >= crypts + env.count(t, k)
    ensures s.duration >= elapsed + env.lap(t, k)
    decreases Gap(minCrypts, crypts) + Gap(SampleTime, elapsed)
  {
    var crypts' := crypts + env.count(t, k);
    var elapsed' := elapsed + env.lap(t, k);
    if crypts' < minCrypts || elapsed' < SampleTime then
      RunFrom(env, t, minCrypts, k + 1, crypts', elapsed')
    else
      Sample(crypts', elapsed', k + 1)
  }

  /** Trial `t` with crypt floor `minCrypts`: it makes at least one call, ends
      with at least `minCrypts` crypts after at least SAMPLE_TIME, and lasts
      at least as long as its first call. */
  function Trial(env: Env, t: nat, minCrypts: int): (s: Sample)
    requires Progressing(env)
    ensures s.calls >= 1
    ensures s.crypts >= minCrypts && s.crypts >= 1
    ensures s.duration >= SampleTime && s.duration >= env.lap(t, 0)
  {
    RunFrom(env, t, minCrypts, 0, 0, 0)
  }

  /** Crypts per second of a sample: the truncation of crypts / seconds. */
  function Cps(s: Sample): (cps: int)
    requires s.duration > 0 && s.crypts >= 0
    ensures cps >= 0
    ensures cps * s.duration <= s.crypts * 1_000_000 < (cps + 1) * s.duration
  {
    s.crypts * 1_000_000 / s.duration
  }

  /** A throughput counts as better than the best so far when it is at least
      REQ_GAIN times that best. */
  predicate Accepts(cps: int, bestCps: int)
  {
    GainDen * cps >= GainNum * bestCps
  }

  /** The search's variables between trials. */
  datatype Tuning = Tuning(scale: int, bestScale: int, bestCps: int, noProgress: nat, minCrypts: int)

  /** Judging a trial run at `st`: on a 5% gain it becomes the best and the
      plateau count restarts, otherwise the plateau count grows; the crypt
      floor becomes the trial's crypt count either way. */
  function Judge(st: Tuning, s: Sample): (r: Tuning)
    requires s.duration > 0 && s.crypts >= 0
    ensures r.scale == st.scale && r.minCrypts == s.crypts
    ensures st.bestCps >= 0 ==> r.bestCps >= st.bestCps
    ensures Accepts(Cps(s), st.bestCps) ==> r.bestScale == st.scale && r.bestCps == Cps(s) && r.noProgress == 0
    ensures !Accepts(Cps(s), st.bestCps) ==> r.bestScale == st.bestScale && r.bestCps == st.bestCps && r.noProgress == st.noProgress + 1
  {
    var cps := Cps(s);
    if Accepts(cps, st.bestCps) then
      Tuning(st.scale, st.scale, cps, 0, s.crypts)
    else
      Tuning(st.scale, st.bestScale, st.bestCps, st.noProgress + 1, s.crypts)
  }

  /** The state before trial `n`: the initial values, then each trial judged
      and the scale doubled. */
  function Before(env: Env, n: nat): Tuning
    requires Progressing(env)
    decreases n, 0
  {
    if n == 0 then Tuning(1, 1, 0, 0, 0)
    else
      var j := Judged(env, n - 1);
      j.(scale := j.scale * 2)
  }

  /** What trial `n` measures. */
  function TrialAt(env: Env, n: nat): Sample
    requires Progressing(env)
    decreases n, 1
  {
    Trial(env, n, Before(env, n).minCrypts)
  }

  /** The state right after trial `n` has been judged. */
  function Judged(env: Env, n: nat): Tuning
    requires Progressing(env)
    decreases n, 2
  {
    Judge(Before(env, n), TrialAt(env, n))
  }

  /** Trial `n` gave a 5% gain over the best before it. */
  predicate Accepted(env: Env, n: nat)
    requires Progressing(env)
  {
    Accepts(Cps(TrialAt(env, n)), Before(env, n).bestCps)
  }

  /** The loop exits after trial `n`. */
  predicate StopsAfter(env: Env, n: nat)
    requires Progressing(env)
  {
    TrialAt(env, n).duration > MaxTuneTime || Judged(env, n).noProgress > MaxNoProgress
  }

  /** Trial `n` is the last one the search runs. */
  predicate FirstStop(env: Env, n: nat)
    requires Progressing(env)
  {
    StopsAfter(env, n) && forall m :: 0 <= m < n ==> !StopsAfter(env, m)
  }

  function Pow2(n: nat): (p: nat)
    ensures p >= 1
  {
    if n == 0 then 1 else 2 * Pow2(n - 1)
  }
}
