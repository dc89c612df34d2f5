/**
 * `omp_autotune`: the tuning state kept across calls, the gate that decides
 * what a call does, the initial scaling call and the scale search itself.
 */
module OmpAutotune {
  import opened Wrappers
  import opened Workload
  import opened Kernel
  import opened Keys
  import opened Search
  import opened SearchProperties
  import opened Calls

  function Abs(x: int): nat
  {
    if x < 0 then -x else x
  }

  /** C's `/` on `int`: the quotient truncated toward zero, so the remainder
      is smaller than the divisor and carries the dividend's sign. */
  function CDiv(a: int, b: int): (q: int)
    requires b != 0
    ensures Abs(a - q * b) < Abs(b)
    ensures a - q * b == 0 || (a - q * b < 0 <==> a < 0)
  {
    var m := Abs(a) / Abs(b);
    if (a < 0) == (b < 0) then m else -m
  }

  lemma MulAtLeast(c: int, b: int)
    requires c >= 1 && b > 0
    ensures c * b >= b
  {
  }

  /** While a trial runs, `max_keys_per_crypt` is mkpc * threads * scale, so a
      call made while the search is running answers threads * scale. */
  lemma ReentryDuringTrial(mkpc: int, threads: int, scale: int)
    requires mkpc > 0 && threads >= 1 && scale >= 1
    ensures CDiv(mkpc * threads * scale, mkpc) == threads * scale
  {
    var x := threads * scale;
    assert mkpc * threads * scale == x * mkpc;
    var q := CDiv(x * mkpc, mkpc);
    assert x * mkpc - q * mkpc == (x - q) * mkpc;
    if q < x {
      MulAtLeast(x - q, mkpc);
    }
  }

  /** The measuring loop of one trial: call `crypt_all` over the whole batch
      and add up the crypts it reports until both the crypt floor and the
      sample time are reached. */
  method RunTrial(fmt: Format, kpc: int, minCrypts: int, env: Env, t: nat)
    returns (crypts: int, duration: nat, calls: nat)
    requires Progressing(env)
    modifies fmt`trace
    ensures Sample(crypts, duration, calls) == Trial(env, t, minCrypts)
    ensures fmt.trace == old(fmt.trace) + CryptCalls(kpc, calls)
  {
    crypts := 0;
    var elapsed: nat := 0;
    var k: nat := 0;
    while true
      invariant RunFrom(env, t, minCrypts, k, crypts, elapsed) == Trial(env, t, minCrypts)
      invariant fmt.trace == old(fmt.trace) + CryptCalls(kpc, k)
      decreases Gap(minCrypts, crypts) + Gap(SampleTime, elapsed)
    {
      var count := kpc;
      fmt.CryptAll(count);
      assert CryptCalls(kpc, k + 1) == CryptCalls(kpc, k) + [Call.CryptAll(kpc)];
      count := env.count(t, k);
      crypts := crypts + count;
      elapsed := elapsed + env.lap(t, k);
      k := k + 1;
      if !(crypts < minCrypts || elapsed < SampleTime) {
        break;
      }
    }
    duration := elapsed;
    calls := k;
  }

  /** The set-up of one trial: size the buffers for `kpc` keys, rebuild
      them and load the generated keys and the chosen salt. */
  method SetUpProbe(fmt: Format, kpc: int, salt: Salt)
    modifies fmt`maxKpc, fmt`trace
    ensures fmt.maxKpc == kpc
    ensures fmt.trace == old(fmt.trace) + SetupCalls(kpc, salt)
  {
    fmt.maxKpc := kpc;
    fmt.Done();
    fmt.Init();
    fmt.ClearKeys();
    LoadTuneKeys(fmt, kpc);
    fmt.SetSalt(salt);
  }

  /** One trial at batch size `kpc`: set `max_keys_per_crypt`, rebuild the
      buffers, load the keys, bind the salt and measure. */
  method RunProbe(fmt: Format, kpc: int, salt: Salt, minCrypts: int, env: Env, t: nat)
    returns (crypts: int, duration: nat, calls: nat)
    requires Progressing(env)
    modifies fmt`maxKpc, fmt`trace
    ensures Sample(crypts, duration, calls) == Trial(env, t, minCrypts)
    ensures fmt.maxKpc == kpc
    ensures fmt.trace == old(fmt.trace) + TrialCalls(kpc, salt, calls)
  {
    SetUpProbe(fmt, kpc, salt);
    crypts, duration, calls := RunTrial(fmt, kpc, minCrypts, env, t);
  }

  /** The function's three static variables. */
  class Autotuner {
    /** the format recorded by the initial call */
    var fmt: Format?
    /** set while a search is in progress */
    var running: bool
    /** the format's per-thread `max_keys_per_crypt`, recorded by the initial call */
    var mkpc: int

    /** Statics start zeroed. */
    constructor ()
      ensures fmt == null && !running && mkpc == 0
    {
      fmt, running, mkpc := null, false, 0;
    }

    /** One call of `omp_autotune(format, db)`, with `threads` the thread
        count, `loaderMaxCost` the loader's cost cap and `env` what the kernel
        and the timer report during the search. */
    method Autotune(format: Format?, db: Option<Db>, threads: int, loaderMaxCost: int, env: Env, ghost horizon: nat)
      returns (r: int)
      requires threads >= 1
      requires running ==> fmt != null && mkpc != 0
      requires !running && threads != 1 && db.None? ==> format != null
      requires !running && threads != 1 && db.Some? ==>
        fmt != null && |TuneDb(db.value).salts| > 0 && Progressing(env) && StopsAfter(env, horizon)
      modifies this, fmt, format
      // a call made while a search runs answers from the current batch size and changes nothing
      ensures old(running) ==>
        r == CDiv(old(fmt.maxKpc), old(mkpc)) && unchanged(this) && unchanged(fmt) &&
        (format != null ==> unchanged(format))
      // with one thread there is nothing to tune, even on the initial call
      ensures !old(running) && threads == 1 ==>
        r == 1 && unchanged(this) && (fmt != null ==> unchanged(fmt)) && (format != null ==> unchanged(format))
      // the initial call records the format and its batch size, and scales the bounds by the thread count
      ensures !old(running) && threads != 1 && db.None? ==>
        r == threads && fmt == format && mkpc == old(format.maxKpc) && !running &&
        format.minKpc == old(format.minKpc) * threads && format.maxKpc == old(format.maxKpc) * threads &&
        format.trace == old(format.trace) &&
        (old(fmt) != null && old(fmt) != format ==> unchanged(old(fmt)))
      // the search call leaves the format set up for the best scale and answers threads * best scale
      ensures !old(running) && threads != 1 && db.Some? ==>
        fmt == old(fmt) && mkpc == old(mkpc) && !running &&
        fmt.minKpc == old(fmt.minKpc) &&
        (format != null && format != fmt ==> unchanged(format)) &&
        exists n: nat :: n <= horizon && FirstStop(env, n) &&
          r == threads * Judged(env, n).bestScale &&
          fmt.maxKpc == mkpc * threads * Judged(env, n).bestScale &&
          fmt.trace == old(fmt.trace) + SearchCalls(env, mkpc * threads, TuneSalt(db.value, loaderMaxCost), n)
    {
      if running {
        return CDiv(fmt.maxKpc, mkpc);
      } else if threads == 1 {
        return 1;
      }

      if db.None? {
        fmt := format;
        mkpc := fmt.maxKpc;
        fmt.minKpc := fmt.minKpc * threads;
        fmt.maxKpc := fmt.maxKpc * threads;
        return threads;
      }

      ghost var n;
      r, n := Search(db.value, threads, loaderMaxCost, env, horizon);
    }

    /** The search call: mark the search running, pick the tuning salt, probe
        doubling scales until a trial is too slow or four in a row gain less
        than 5%, then configure the format for the best scale. */
    method Search(db: Db, threads: int, loaderMaxCost: int, env: Env, ghost horizon: nat)
      returns (r: int, ghost n: nat)
      requires fmt != null && !running
      requires |TuneDb(db).salts| > 0 && Progressing(env) && StopsAfter(env, horizon)
      modifies this`running, fmt
      ensures !running
      ensures n <= horizon && FirstStop(env, n)
      ensures r == threads * Judged(env, n).bestScale
      ensures fmt.maxKpc == mkpc * threads * Judged(env, n).bestScale
      ensures fmt.minKpc == old(fmt.minKpc)
      ensures fmt.trace == old(fmt.trace) + SearchCalls(env, mkpc * threads, TuneSalt(db, loaderMaxCost), n)
    {
      running := true;

      var tuneDb := TuneDb(db);
      var tuneCost := TuneCost(tuneDb, loaderMaxCost);
      var s := FindTuneSalt(tuneDb.salts, tuneCost);
      var salt := tuneDb.salts[s];

      var bestScale, scale;
      bestScale, scale, n := ProbeScales(salt, threads, env, horizon);
      ghost var trials := fmt.trace;
      Finish(threads, bestScale, scale);
      r := threads * bestScale;
      assert fmt.trace == trials + FinalCalls(mkpc * threads * bestScale, bestScale != scale);
    }

    /** The search loop: probe scales 1, 2, 4, ... and keep the best one,
        until a trial takes longer than MAX_TUNE_TIME or the plateau count
        exceeds MAX_NO_PROGRESS. */
    method ProbeScales(salt: Salt, threads: int, env: Env, ghost horizon: nat)
      returns (bestScale: int, scale: int, ghost n: nat)
      requires fmt != null && running && Progressing(env) && StopsAfter(env, horizon)
      modifies fmt`maxKpc, fmt`trace
      ensures n <= horizon && FirstStop(env, n)
      ensures bestScale == Judged(env, n).bestScale && scale == Judged(env, n).scale
      ensures fmt.trace == old(fmt.trace) + TrialsCalls(env, mkpc * threads, salt, n + 1)
    {
      var bestCps, noProgress, minCrypts := 0, 0, 0;
      bestScale, scale := 1, 1;
      var trial: nat := 0;
      ghost var base := mkpc * threads;
      while true
        invariant trial <= horizon
        invariant Tuning(scale, bestScale, bestCps, noProgress, minCrypts) == Before(env, trial)
        invariant forall m :: 0 <= m < trial ==> !StopsAfter(env, m)
        invariant fmt.trace == old(fmt.trace) + TrialsCalls(env, base, salt, trial)
        decreases horizon - trial
      {
        var thisKpc := mkpc * threads * scale;
        var crypts, duration, calls := RunProbe(fmt, thisKpc, salt, minCrypts, env, trial);
        assert Sample(crypts, duration, calls) == TrialAt(env, trial);
        TrialsCallsNext(env, base, salt, trial, old(fmt.trace), thisKpc, calls);

        var cps := Cps(Sample(crypts, duration, calls));
        if Accepts(cps, bestCps) {
          bestCps := cps;
          bestScale := scale;
          noProgress := 0;
        } else {
          noProgress := noProgress + 1;
        }
        minCrypts := crypts;
        assert Tuning(scale, bestScale, bestCps, noProgress, minCrypts) == Judged(env, trial);

        if duration > MaxTuneTime || noProgress > MaxNoProgress {
          assert StopsAfter(env, trial);
          break;
        }
        assert trial < horizon;
        scale := scale * 2;
        trial := trial + 1;
      }
      n := trial;
    }

    /** Configure the format for the best scale, rebuild its buffers when the
        last probe was another scale, and mark the search finished. */
    method Finish(threads: int, bestScale: int, scale: int)
      requires fmt != null && running
      modifies this`running, fmt`maxKpc, fmt`trace
      ensures !running
      ensures fmt.maxKpc == mkpc * threads * bestScale
      ensures fmt.trace == old(fmt.trace) + FinalCalls(mkpc * threads * bestScale, bestScale != scale)
    {
      fmt.maxKpc := mkpc * threads * bestScale;
      if bestScale != scale {
        fmt.Done();
        fmt.Init();
      }
      running := false;
    }
  }
}
