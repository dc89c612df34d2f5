/**
 * What the search promises about its trials: the probed scales, the
 * acceptance rule, the best result, the crypt floor and the stop rule.
 */
module SearchProperties {
  import opened Search

  /** Trial `n` probes scale 2^n. */
  lemma {:induction false} ProbedScale(env: Env, n: nat)
    requires Progressing(env)
    ensures Before(env, n).scale == Pow2(n) && Judged(env, n).scale == Pow2(n)
  {
    if n > 0 {
      ProbedScale(env, n - 1);
    }
  }

  /** The first trial is always accepted: the best throughput starts at 0. */
  lemma FirstTrialAccepted(env: Env)
    requires Progressing(env)
    ensures Accepted(env, 0)
    ensures Judged(env, 0) == Tuning(1, 1, Cps(TrialAt(env, 0)), 0, TrialAt(env, 0).crypts)
  {
  }

  /** The best throughput is never negative. */
  lemma {:induction false} BestCpsNonNegative(env: Env, n: nat)
    requires Progressing(env)
    ensures Before(env, n).bestCps >= 0 && Judged(env, n).bestCps >= 0
  {
    if n > 0 {
      BestCpsNonNegative(env, n - 1);
    }
  }

  /** The best throughput never decreases from one trial to a later one. */
  lemma {:induction false} BestCpsNeverDecreases(env: Env, m: nat, n: nat)
    requires Progressing(env)
    requires m <= n
    ensures Judged(env, m).bestCps <= Judged(env, n).bestCps
    decreases n
  {
    if m < n {
      BestCpsNeverDecreases(env, m, n - 1);
      BestCpsNonNegative(env, n);
    }
  }

  /** The last trial up to `n` that gave a 5% gain; every trial after it
      was rejected. */
  function LastAccepted(env: Env, n: nat): (m: nat)
    requires Progressing(env)
    ensures m <= n
    ensures forall m' :: m < m' <= n ==> !Accepted(env, m')
  {
    if n == 0 || Accepted(env, n) then n else LastAccepted(env, n - 1)
  }

  /** The best after trial `n` is the last accepted trial: that trial was
      accepted and its scale and throughput are the best ones, so the best
      scale is a probed scale no larger than the current one. */
  lemma {:induction false} BestIsProbed(env: Env, n: nat)
    requires Progressing(env)
    ensures Judged(env, n).bestScale <= Judged(env, n).scale
    ensures Accepted(env, LastAccepted(env, n))
    ensures Judged(env, n).bestScale == Pow2(LastAccepted(env, n))
    ensures Judged(env, n).bestCps == Cps(TrialAt(env, LastAccepted(env, n)))
  {
    ProbedScale(env, n);
    if n == 0 || Accepted(env, n) {
      FirstTrialAccepted(env);
    } else {
      BestIsProbed(env, n - 1);
      ProbedScale(env, n - 1);
    }
  }

  /** A trial becomes the best exactly when it shows a 5% gain: the best scale
      equals the probed scale after trial `n` if and only if trial `n` was
      accepted. */
  lemma AcceptIff(env: Env, n: nat)
    requires Progressing(env)
    ensures Judged(env, n).bestScale == Judged(env, n).scale <==> Accepted(env, n)
  {
    ProbedScale(env, n);
    if !Accepted(env, n) {
      FirstTrialAccepted(env);
      BestIsProbed(env, n - 1);
      ProbedScale(env, n - 1);
    }
  }

  /** Each trial's crypt floor is the crypt count of the trial before, and the
      crypt counts of successive trials never decrease. */
  lemma {:induction false} FloorNeverDecreases(env: Env, m: nat, n: nat)
    requires Progressing(env)
    requires m <= n
    ensures Before(env, n + 1).minCrypts == TrialAt(env, n).crypts
    ensures TrialAt(env, m).crypts <= TrialAt(env, n).crypts
    decreases n
  {
    if m < n {
      FloorNeverDecreases(env, m, n - 1);
    }
  }

  /** The plateau count after trial `n` is at least `k` exactly when the last
      `k` trials were all rejected. */
  lemma {:induction false} NoProgressRun(env: Env, n: nat, k: nat)
    requires Progressing(env)
    requires k <= n + 1
    ensures Judged(env, n).noProgress >= k <==> forall m :: n - k < m <= n ==> !Accepted(env, m)
    decreases n
  {
    if k > 0 {
      if Accepted(env, n) {
        assert Judged(env, n).noProgress == 0;
      } else {
        FirstTrialAccepted(env);
        NoProgressRun(env, n - 1, k - 1);
        assert Judged(env, n).noProgress == Judged(env, n - 1).noProgress + 1;
      }
    }
  }

  /** The stop rule: the search stops after trial `n` exactly when that trial
      took longer than MAX_TUNE_TIME or it was the fourth rejected trial in a
      row (the plateau count exceeded MAX_NO_PROGRESS). */
  lemma StopRule(env: Env, n: nat)
    requires Progressing(env)
    ensures StopsAfter(env, n) <==>
      TrialAt(env, n).duration > MaxTuneTime ||
      (n >= MaxNoProgress && forall m :: n - (MaxNoProgress + 1) < m <= n ==> !Accepted(env, m))
  {
    if n >= MaxNoProgress {
      NoProgressRun(env, n, MaxNoProgress + 1);
    } else {
      FirstTrialAccepted(env);
      NoProgressRun(env, n, n + 1);
    }
  }

  /** Under the bound on the oracle, the search runs at most horizon + 1
      trials. */
  lemma SearchEnds(env: Env, horizon: nat)
    requires Progressing(env) && Bounded(env, horizon)
    ensures exists n: nat :: n <= horizon && FirstStop(env, n)
  {
    assert StopsAfter(env, horizon);
    FirstStopWithin(env, 0, horizon);
  }

  lemma {:induction false} FirstStopWithin(env: Env, from: nat, bound: nat)
    requires Progressing(env)
    requires from <= bound && StopsAfter(env, bound)
    requires forall m :: 0 <= m < from ==> !StopsAfter(env, m)
    ensures exists n :: from <= n <= bound && FirstStop(env, n)
    decreases bound - from
  {
    if StopsAfter(env, from) {
      assert FirstStop(env, from);
    } else {
      FirstStopWithin(env, from + 1, bound);
    }
  }

  /** There is only one last trial. */
  lemma FirstStopUnique(env: Env, n: nat, n': nat)
    requires Progressing(env)
    requires FirstStop(env, n) && FirstStop(env, n')
    ensures n == n'
  {
  }
}
