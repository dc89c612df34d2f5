# OpenMP scale autotuning (`omp_autotune`)

This project models John the Ripper's OpenMP autotuner, the function
`omp_autotune(format, db)` in `src/omp_autotune.c`, and proves properties of
the model in Dafny.

A format's crypt kernel runs one batch of `max_keys_per_crypt` candidate
passwords per `crypt_all` call. The autotuner finds the batch size that
gives the best throughput on the machine. It is called in three situations.

- **Initial call** (`db == NULL`). It records the format and its per-thread
  batch size `mkpc`. It multiplies `min_keys_per_crypt` and
  `max_keys_per_crypt` by the thread count and returns the thread count.
- **Search call** (with a database). It picks the tuning salt: the first
  salt whose first cost reaches the smaller of the database's highest cost
  and the loader's cost cap, or the last salt if none does. It then probes
  the scales 1, 2, 4, ... For each scale it rebuilds the format's buffers
  for `mkpc * threads * scale` keys, loads the keys `"tune0000"`,
  `"tune0001"`, ... and binds the salt. It then calls `crypt_all` until at
  least as many crypts are counted as in the previous trial and at least
  10 ms have passed.
  - A trial becomes the new best when its crypts per second are at least
    1.05 times the best so far.
  - The search stops after a trial longer than 100 ms, or once the count of
    consecutive non-gaining trials exceeds 3.
  - The format is then set to the best scale. Its buffers are rebuilt when
    the last probe was another scale. The call returns
    `threads * best_scale`.
- **Re-entrant call.** The format's own `init` calls the autotuner again
  while a search is running. That call answers `max_keys_per_crypt / mkpc`
  and changes nothing. With one thread, every call that is not re-entrant
  returns 1 and changes nothing.

## Structure

| module | file | contents |
|---|---|---|
| `Wrappers` | `wrappers.dfy` | `Option` |
| `Workload` | `workload.dfy` | the salt list and the tuning-salt scan |
| `Kernel` | `kernel.dfy` | class `Format`: the batch bounds and a trace of the method calls |
| `Keys` | `keys.dfy` | the generated keys and the key loading loop |
| `Search` | `search.dfy` | the search as functions of the trial number |
| `SearchProperties` | `search_properties.dfy` | lemmas about the search |
| `Calls` | `calls.dfy` | the call trace the search leaves on the format |
| `OmpAutotune` | `autotune.dfy` | class `Autotuner`: the three statics, the gate, the initial call, the search loops |
| `Scenarios` | `scenarios.dfy` | two concrete searches worked out trial by trial |

### What the model takes as parameters

- **The hash kernel and the timer.** They are the oracle `Env`.
  `count(t, k)` is the count that the k-th `crypt_all` call of trial `t`
  writes back. `lap(t, k)` is the number of microseconds that call takes.
- **Thread count and cost cap.** `omp_get_max_threads()` and
  `options.loader.max_cost[0]` are plain parameters.
- **Format methods.** Their bodies are not modelled. Each call is recorded
  in `Format.trace`, and the init call records the batch size it sets up
  buffers for.

### The search specification

The search is specified trial by trial:

- `Before(n)`: the loop's variables before trial `n`;
- `TrialAt(n)`: what trial `n` measures;
- `Judged(n)`: the variables after trial `n` is judged;
- `StopsAfter(n)`: the exit test after trial `n`;
- `FirstStop(n)`: trial `n` is the last one.

The loop in `Autotuner.ProbeScales` is proved to follow this specification.
The lemmas in `SearchProperties`, `Calls` and `Scenarios` state what the
specification implies.

### Plateau rule

The comment on `MAX_NO_PROGRESS` at `src/omp_autotune.c:22-23` says the
search gives up once that many doublings, 3, did no good. The exit test at
line 153 is `no_progress > MAX_NO_PROGRESS`, so the search stops only on the
fourth consecutive non-gaining trial. The model follows the code. `SearchProperties.StopRule`
states the rule, and `Scenarios.GainScenario` shows a search that goes on
after three non-gaining trials and stops after the fourth.

## Model

| member | source | states |
|---|---|---|
| Workload.TuneDb | src/omp_autotune.c:82 | the scan walks the real database behind a test database when there is one, else the database given |
| Workload.TuneCost | src/omp_autotune.c:85 | the tuning cost is the smaller of the database's highest first cost and the loader's cap: at most both, and equal to one of them |
| Workload.ScanIndex | src/omp_autotune.c:82-89 | the scan stops at a salt in the list; every salt before it costs less than the cap; it is the last salt or reaches the cap |
| Workload.ScanIndexUnique | src/omp_autotune.c:87-88 | those three facts determine the scan's stopping index |
| Workload.FindTuneSalt | src/omp_autotune.c:82-90 | the pointer walk over the salt list stops at the first salt reaching the cap, or at the last salt, and agrees with `ScanIndex` |
| Workload.TuneSalt | src/omp_autotune.c:82-89 | the salt every trial runs against: the one `ScanIndex` picks from the scanned database under the tuning cost |
| Keys.TuneKey | src/omp_autotune.c:39 | key `i` has eight characters: "tune" followed by four decimal digits |
| Keys.FourDigits | src/omp_autotune.c:113-116 | a number below 10000 is the place-value sum of its four decimal digits |
| Keys.KeyIndexOfTuneKey | src/omp_autotune.c:113-117 | the digits of key `i` spell `i mod 10000` |
| Keys.TuneKeyInjective | src/omp_autotune.c:112-117 | two indices get the same key if and only if they agree modulo 10000 |
| Keys.BufferDigits | src/omp_autotune.c:113-116 | the four digits written from the index give the key of that index |
| Keys.KeyCalls | src/omp_autotune.c:112-118 | one trial makes `max(kpc, 0)` `set_key` calls; call `i` passes key `i` and index `i` |
| Keys.KeyCallsNext | src/omp_autotune.c:112-118 | one more index appends exactly one more `set_key` call |
| Keys.WriteDigits | src/omp_autotune.c:113-116 | after the four digit writes, the buffer holds key `i` and still starts with "tune" |
| Keys.LoadTuneKeys | src/omp_autotune.c:111-118 | the key loading loop appends exactly the `set_key` calls of `KeyCalls(kpc)` to the format's trace |
| Kernel.Format.constructor | src/omp_autotune.c:64-66 | a format whose `min_keys_per_crypt` and `max_keys_per_crypt` are the given bounds, with no calls made on it yet |
| Kernel.Format.Done | src/omp_autotune.c:105 | appends one `done` call to the trace |
| Kernel.Format.Init | src/omp_autotune.c:108 | appends one `init` call, recording the current `max_keys_per_crypt` |
| Kernel.Format.ClearKeys | src/omp_autotune.c:111 | appends one `clear_keys` call |
| Kernel.Format.SetKey | src/omp_autotune.c:117 | appends one `set_key` call with the key and the index |
| Kernel.Format.SetSalt | src/omp_autotune.c:120 | appends one `set_salt` call with the salt |
| Kernel.Format.CryptAll | src/omp_autotune.c:124-126 | appends one `crypt_all` call with the count passed in |
| Search.RunFrom | src/omp_autotune.c:123-128 | the measuring loop ends with at least the crypt floor counted and at least SAMPLE_TIME elapsed, after at least one more call |
| Search.Trial | src/omp_autotune.c:122-131 | a trial makes at least one call, counts at least one crypt and at least the floor, and lasts at least SAMPLE_TIME and at least its first call |
| Search.Cps | src/omp_autotune.c:131-132 | the throughput is the truncated quotient of crypts by seconds: `cps * duration <= crypts * 10^6 < (cps + 1) * duration` |
| Search.Judge | src/omp_autotune.c:138-151 | on a 5% gain the trial becomes the best and the plateau count restarts; otherwise the best is kept and the plateau count grows by one; either way the floor becomes the trial's crypts and the best throughput does not decrease |
| Search.Accepts | src/omp_autotune.c:138 | a throughput is a gain when it is at least 1.05 times the best so far |
| Search.Before | src/omp_autotune.c:33-157 | the loop's variables before trial `n`: the initial values, then each trial judged and the scale doubled |
| Search.TrialAt | src/omp_autotune.c:122-131 | trial `n` measured against the crypt floor left by the trial before |
| Search.Judged | src/omp_autotune.c:138-151 | the loop's variables after trial `n` is judged |
| Search.StopsAfter | src/omp_autotune.c:153 | the exit test after trial `n`: longer than MAX_TUNE_TIME, or the plateau count above MAX_NO_PROGRESS |
| Search.FirstStop | src/omp_autotune.c:153-154 | trial `n` is the one the loop exits after: the exit test holds for it and for no earlier trial |
| Search.Pow2 | src/omp_autotune.c:157 | 2^n, the scale after n doublings; its own contract is only the bound `p >= 1`, and `ProbedScale` carries its meaning |
| SearchProperties.ProbedScale | src/omp_autotune.c:156-157 | trial `n` probes scale 2^n |
| SearchProperties.FirstTrialAccepted | src/omp_autotune.c:138-143 | the first trial always becomes the best, because the best throughput starts at 0 |
| SearchProperties.BestCpsNonNegative | src/omp_autotune.c:138-149 | the best throughput is never negative |
| SearchProperties.BestCpsNeverDecreases | src/omp_autotune.c:138-149 | the best throughput never decreases from one trial to a later one |
| SearchProperties.LastAccepted | src/omp_autotune.c:138-149 | the last accepted trial up to `n` is at most `n`, and every trial after it was rejected |
| SearchProperties.BestIsProbed | src/omp_autotune.c:138-157 | the best after trial `n` is the last accepted trial: that trial was accepted, and its scale 2^m and its throughput are the best ones; so the best scale is at most the current scale |
| SearchProperties.AcceptIff | src/omp_autotune.c:138-167 | the best scale equals the probed scale after trial `n` if and only if trial `n` gave a 5% gain |
| SearchProperties.FloorNeverDecreases | src/omp_autotune.c:128-151 | each trial's crypt floor is the previous trial's crypt count, and crypt counts never decrease across trials |
| SearchProperties.NoProgressRun | src/omp_autotune.c:143-148 | the plateau count after trial `n` is at least `k` if and only if the last `k` trials were all rejected |
| SearchProperties.StopRule | src/omp_autotune.c:153-154 | the search stops after trial `n` if and only if that trial took more than 100 ms, or it was the fourth rejected trial in a row |
| SearchProperties.SearchEnds | src/omp_autotune.c:97-158 | when every trial from some horizon on has a first call longer than 100 ms, there is a last trial no later than the horizon; this is one way to meet the premise `StopsAfter(env, horizon)` of the search |
| SearchProperties.FirstStopWithin | src/omp_autotune.c:153-154 | if trial `bound` would stop and no trial before `from` stops, the last trial lies between `from` and `bound` |
| SearchProperties.FirstStopUnique | src/omp_autotune.c:153-154 | the last trial is unique |
| Calls.CryptCalls | src/omp_autotune.c:123-128 | a trial's measurement is `calls` calls of `crypt_all`, each passed the batch size |
| Calls.TrialsCallsNext | src/omp_autotune.c:97-158 | the calls of one more trial extend the calls of the trials before it |
| Calls.SetupCalls | src/omp_autotune.c:102-120 | the set-up of a trial: `done`, `init`, `clear_keys`, the key calls and `set_salt`, in that order |
| Calls.TrialCalls | src/omp_autotune.c:102-128 | one trial's calls: its set-up, then its `crypt_all` calls |
| Calls.TrialsCalls | src/omp_autotune.c:96-158 | the calls of the first `n` trials, trial `m` at batch size `mkpc * threads * 2^m` |
| Calls.FinalCalls | src/omp_autotune.c:167-173 | one more `done` and `init` at the best batch size exactly when the last probe was another scale |
| Calls.SearchCalls | src/omp_autotune.c:96-173 | the whole search ending after trial `n`: all its trials, then the final rebuild |
| Calls.SetUpFor | src/omp_autotune.c:104-108 | the batch size the buffers are set up for: the last `init`, unless a `done` released them after it |
| Calls.DoneReleases | src/omp_autotune.c:104-108 | after a `done` no buffers are set up; after an `init` they are set up for its batch size |
| Calls.SetUpForSkips | src/omp_autotune.c:111-128 | calls that neither set up nor release buffers leave the set-up unchanged |
| Calls.SetUpAfterTrial | src/omp_autotune.c:102-128 | after a trial, the buffers are set up for that trial's batch size |
| Calls.Provisioned | src/omp_autotune.c:165-173 | after the search the buffers are set up, not released, for `mkpc * threads * best_scale`, whether the last probe was the best or not |
| Calls.OneSalt | src/omp_autotune.c:89-120 | every `set_salt` call of the search binds the chosen tuning salt |
| Calls.TrialsOneSalt | src/omp_autotune.c:120 | every `set_salt` call in the first `n` trials binds the chosen tuning salt |
| OmpAutotune.CDiv | src/omp_autotune.c:48 | C integer division truncates toward zero: the remainder is smaller than the divisor in magnitude and has the dividend's sign |
| OmpAutotune.ReentryDuringTrial | src/omp_autotune.c:99-102 | a re-entrant call during a trial at scale `s` answers `threads * s` |
| OmpAutotune.RunTrial | src/omp_autotune.c:122-131 | the measuring loop yields exactly the sample `Trial` specifies, and appends one `crypt_all` call per iteration |
| OmpAutotune.SetUpProbe | src/omp_autotune.c:99-120 | the trial set-up sets `max_keys_per_crypt` to the batch size and appends `done`, `init`, `clear_keys`, the key calls and `set_salt` |
| OmpAutotune.RunProbe | src/omp_autotune.c:99-131 | one trial yields `Trial`'s sample, leaves `max_keys_per_crypt` at the batch size and appends exactly that trial's calls |
| OmpAutotune.Autotuner.constructor | src/omp_autotune.c:29-31 | the statics start zeroed |
| OmpAutotune.Autotuner.Autotune | src/omp_autotune.c:43-181 | the re-entrant call answers `max_keys_per_crypt / mkpc` and changes nothing; with one thread the call answers 1 and changes nothing; the initial call records the format and mkpc, scales both bounds by the thread count, leaves a previously recorded format alone and answers the thread count; the search call ends at the first stopping trial, answers `threads * best_scale`, sets `max_keys_per_crypt` to `mkpc * threads * best_scale` and leaves exactly the calls of `SearchCalls` on the format |
| OmpAutotune.Autotuner.Search | src/omp_autotune.c:78-181 | the search sets the running flag before the trials (`ProbeScales` and `Finish` require it), probes against the tuning salt, stops at the first stopping trial, configures the best scale and clears the running flag |
| OmpAutotune.Autotuner.ProbeScales | src/omp_autotune.c:96-158 | the doubling loop follows `Before`/`Judged` trial by trial, exits at the first trial `StopsAfter` holds for, within the horizon, and returns that trial's best and current scales |
| OmpAutotune.Autotuner.Finish | src/omp_autotune.c:165-175 | sets `max_keys_per_crypt` for the best scale, rebuilds the buffers exactly when the last probe was another scale, and clears the running flag |
| Scenarios.OneCallTrial | src/omp_autotune.c:123-128 | a trial whose first call reaches both the floor and SAMPLE_TIME makes exactly that one call |
| Scenarios.NextJudged | src/omp_autotune.c:123-157 | the state after a one-call trial, from the state after the trial before |
| Scenarios.PlateauOpening | src/omp_autotune.c:138-151 | in the plateau run, scale 2 doubles the throughput and is accepted, and scale 4 gains 2.4% and is rejected |
| Scenarios.PlateauScenario | src/omp_autotune.c:138-181 | in the plateau run the search stops after the trial at scale 32 (the fourth rejected trial in a row), keeps scale 2, and `4 * best_scale` is 8 (`PlateauRun` obtains that answer from `Autotune` itself) |
| Scenarios.PlateauRun | src/omp_autotune.c:43-181 | with four threads and one key per thread, `omp_autotune` on the plateau run answers 4 on the initial call, then 8 on the search call, and leaves `max_keys_per_crypt` at 8 |
| Scenarios.GainOpening | src/omp_autotune.c:138-151 | in the gain run, gains of 3% and 4% are rejected and a 50% gain at scale 8 becomes the best |
| Scenarios.GainScenario | src/omp_autotune.c:138-158 | in the gain run, three rejected trials after the best do not stop the search and the fourth does, with scale 8 kept |

## Left out

- Timer and clock: `sTimer` is replaced by the `lap` oracle in whole microseconds.
- Trial duration: it is the time elapsed at the loop's last test. The moment between that test and `sTimer_Stop` is not modelled.
- Search.Accepts: the `double` comparison `cps >= best_cps * 1.05` is modelled as the exact rational comparison `100 * cps >= 105 * best_cps`. Floating-point rounding of `best_cps * 1.05`, and of the `cps` conversion, is not modelled.
- Search.Cps: the throughput is computed from whole microseconds rather than from a `double` duration in seconds.
- Integer width: all integers are unbounded. C `int` overflow of `mkpc * threads * scale`, of `crypts` or of `cps` is not modelled.
- Thread count: `omp_get_max_threads()` is a parameter, at least 1.
- Diagnostics: the output printed under `OMP_DEBUG` and at high verbosity, the blank line printed during a benchmark, and the `log_event` entry are left out. They do not affect the result.
- Format methods: their bodies (buffer allocation, hashing) are hash-kernel code and not part of this model. Only the calls are recorded. The re-entrant call that a format's `init` makes is modelled by the gate of `Autotuner.Autotune` and by `ReentryDuringTrial`, not as a nested call inside `Format.Init`.
- OmpAutotune.Autotuner.Autotune: the search path needs `Progressing(env)` and `StopsAfter(env, horizon)` of the oracle. Every `crypt_all` call must count at least one crypt and take at least a microsecond, or the measuring loop need not end. Some trial `horizon` must satisfy the exit test, by the 100 ms rule or by the plateau rule, or the doubling loop need not end. The source's loops end under the same two conditions; it has no other stopping rule. `SearchEnds` shows that trials eventually outlasting 100 ms give such a horizon.
- OmpAutotune.Autotuner.Autotune: the `format` argument is ignored on the search path, as in the source. The search works on the format recorded by the initial call, and the model requires that one to exist. The source simply dereferences it.
- Database: only the fields the salt scan reads are modelled (the salt list, `max_cost[0]`, the `real` link and each salt's `cost[0]`). The salt list must be non-empty, because the source dereferences its head.
- Salt pointer: the opaque salt is an integer id.
