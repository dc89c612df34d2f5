/**
 * The calls the search makes on the format, trial by trial, and what the
 * format is left set up for.
 */
module Calls {
  import opened Wrappers
  import opened Workload
  import opened Kernel
  import opened Keys
  import opened Search
  import opened SearchProperties

  /** The `crypt_all` calls of one trial, each passed the batch size. */
  function CryptCalls(kpc: int, calls: nat): (r: seq<Call>)
    ensures |r| == calls
    ensures forall i :: 0 <= i < calls ==> r[i] == Call.CryptAll(kpc)
  {
    seq(calls, _ => Call.CryptAll(kpc))
  }

  /** The set-up of a trial at batch size `kpc`: release and set up the
      buffers, load the keys, bind the salt. */
  function SetupCalls(kpc: int, salt: Salt): seq<Call>
  {
    [Call.Done, Call.Init(kpc), Call.ClearKeys] + KeyCalls(kpc) + [Call.SetSalt(salt)]
  }

  /** One trial at batch size `kpc`: the set-up, then the measurement. */
  function TrialCalls(kpc: int, salt: Salt, calls: nat): seq<Call>
  {
    SetupCalls(kpc, salt) + CryptCalls(kpc, calls)
  }

  /** The first `n` trials, with `base` = mkpc * threads. */
  function TrialsCalls(env: Env, base: int, salt: Salt, n: nat): seq<Call>
    requires Progressing(env)
  {
    if n == 0 then []
    else TrialsCalls(env, base, salt, n - 1) + TrialCalls(base * Before(env, n - 1).scale, salt, TrialAt(env, n - 1).calls)
  }

  /** The calls of one more trial extend the calls of the trials before it. */
  lemma TrialsCallsNext(env: Env, base: int, salt: Salt, n: nat, prefix: seq<Call>, kpc: int, calls: nat)
    requires Progressing(env)
    requires kpc == base * Before(env, n).scale && calls == TrialAt(env, n).calls
    ensures prefix + TrialsCalls(env, base, salt, n) + TrialCalls(kpc, salt, calls) == prefix + TrialsCalls(env, base, salt, n + 1)
  {
  }

  /** After the last trial: one more release and set-up at batch size `kpc`
      when the last probe is not the best. */
  function FinalCalls(kpc: int, rebuild: bool): seq<Call>
  {
    if rebuild then [Call.Done, Call.Init(kpc)] else []
  }

  /** The whole search ending after trial `n`. */
  function SearchCalls(env: Env, base: int, salt: Salt, n: nat): seq<Call>
    requires Progressing(env)
  {
    TrialsCalls(env, base, salt, n + 1) +
    FinalCalls(base * Judged(env, n).bestScale, Judged(env, n).bestScale != Judged(env, n).scale)
  }

  /** The batch size the format's buffers are set up for after `calls`:
      an `init` sets them up for its batch size, a `done` releases them, and
      every other call leaves them as they are. */
  function SetUpFor(calls: seq<Call>): Option<int>
  {
    if calls == [] then None
    else if calls[|calls| - 1].Init? then Some(calls[|calls| - 1].kpc)
    else if calls[|calls| - 1].Done? then None
    else SetUpFor(calls[..|calls| - 1])
  }

  /** The calls neither set up nor release the buffers. */
  predicate KeepsBuffers(calls: seq<Call>)
  {
    forall i :: 0 <= i < |calls| ==> !calls[i].Init? && !calls[i].Done?
  }

  /** `done` releases the buffers and `init` sets them up, whatever came
      before. */
  lemma DoneReleases(calls: seq<Call>, kpc: int)
    ensures SetUpFor(calls + [Call.Done]) == None
    ensures SetUpFor(calls + [Call.Init(kpc)]) == Some(kpc)
  {
  }

  /** Calls that neither set up nor release buffers leave them as they were. */
  lemma {:induction false} SetUpForSkips(a: seq<Call>, b: seq<Call>)
    requires KeepsBuffers(b)
    ensures SetUpFor(a + b) == SetUpFor(a)
    decreases |b|
  {
    if b != [] {
      var b' := b[..|b| - 1];
      assert (a + b)[|a + b| - 1] == b[|b| - 1];
      assert !b[|b| - 1].Init? && !b[|b| - 1].Done?;
      assert (a + b)[..|a + b| - 1] == a + b';
      assert forall i :: 0 <= i < |b'| ==> b'[i] == b[i];
      assert a + b != [];
      assert SetUpFor(a + b) == SetUpFor(a + b');
      SetUpForSkips(a, b');
    } else {
      assert a + b == a;
    }
  }

  /** After a trial the buffers are set up for that trial's batch. */
  lemma SetUpAfterTrial(prefix: seq<Call>, kpc: int, salt: Salt, calls: nat)
    ensures SetUpFor(prefix + TrialCalls(kpc, salt, calls)) == Some(kpc)
  {
    var head := prefix + [Call.Done, Call.Init(kpc)];
    var tail := [Call.ClearKeys] + KeyCalls(kpc) + [Call.SetSalt(salt)] + CryptCalls(kpc, calls);
    assert prefix + TrialCalls(kpc, salt, calls) == head + tail;
    assert head[..|head| - 1] == prefix + [Call.Done];
    SetUpForSkips(head, tail);
  }

  /** The search leaves the format set up, not released, for the best scale,
      whether or not the last probe was the best. */
  lemma Provisioned(env: Env, base: int, salt: Salt, n: nat)
    requires Progressing(env)
    ensures SetUpFor(SearchCalls(env, base, salt, n)) == Some(base * Judged(env, n).bestScale)
  {
    var trials := TrialsCalls(env, base, salt, n + 1);
    if Judged(env, n).bestScale != Judged(env, n).scale {
      var calls := trials + [Call.Done, Call.Init(base * Judged(env, n).bestScale)];
      assert SearchCalls(env, base, salt, n) == calls;
    } else {
      assert SearchCalls(env, base, salt, n) == trials;
      SetUpAfterTrial(TrialsCalls(env, base, salt, n), base * Before(env, n).scale, salt, TrialAt(env, n).calls);
    }
  }

  /** Only the chosen salt is ever bound: every trial uses the same salt. */
  lemma {:induction false} OneSalt(env: Env, base: int, salt: Salt, n: nat)
    requires Progressing(env)
    ensures forall i :: 0 <= i < |SearchCalls(env, base, salt, n)| && SearchCalls(env, base, salt, n)[i].SetSalt? ==>
      SearchCalls(env, base, salt, n)[i].salt == salt
  {
    TrialsOneSalt(env, base, salt, n + 1);
  }

  lemma {:induction false} TrialsOneSalt(env: Env, base: int, salt: Salt, n: nat)
    requires Progressing(env)
    ensures forall i :: 0 <= i < |TrialsCalls(env, base, salt, n)| && TrialsCalls(env, base, salt, n)[i].SetSalt? ==>
      TrialsCalls(env, base, salt, n)[i].salt == salt
  {
    if n > 0 {
      TrialsOneSalt(env, base, salt, n - 1);
    }
  }
}
