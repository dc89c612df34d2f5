/**
 * The format (`struct fmt_main`) as the autotuner sees it: its two batch
 * bounds in `params`, and its methods, whose bodies are hash-kernel code. Each
 * method is modelled by the call it appends to `trace`.
 */
module Kernel {
  import opened Workload

  /** One call into the format's methods. `Init` records the
      `max_keys_per_crypt` the buffers are set up for; `CryptAll` the count
      passed in. */
  datatype Call =
    | Done
    | Init(kpc: int)
    | ClearKeys
    | SetKey(key: string, index: int)
    | SetSalt(salt: Salt)
    | CryptAll(count: int)

  class Format {
    /** `params.min_keys_per_crypt` */
    var minKpc: int
    /** `params.max_keys_per_crypt` */
    var maxKpc: int
    /** every method call made on this format, oldest first */
    var trace: seq<Call>

    constructor (minKpc: int, maxKpc: int)
      ensures this.minKpc == minKpc && this.maxKpc == maxKpc && trace == []
    {
      this.minKpc := minKpc;
      this.maxKpc := maxKpc;
      trace := [];
    }

    /** `methods.done()`: release the buffers. */
    method Done()
      modifies this`trace
      ensures trace == old(trace) + [Call.Done]
    {
      trace := trace + [Call.Done];
    }

    /** `methods.init(fmt)`: set up buffers for `max_keys_per_crypt` keys. */
    method Init()
      modifies this`trace
      ensures trace == old(trace) + [Call.Init(maxKpc)]
    {
      trace := trace + [Call.Init(maxKpc)];
    }

    /** `methods.clear_keys()` */
    method ClearKeys()
      modifies this`trace
      ensures trace == old(trace) + [Call.ClearKeys]
    {
      trace := trace + [Call.ClearKeys];
    }

    /** `methods.set_key(key, index)`; the format copies the key. */
    method SetKey(key: string, index: int)
      modifies this`trace
      ensures trace == old(trace) + [Call.SetKey(key, index)]
    {
      trace := trace + [Call.SetKey(key, index)];
    }

    /** `methods.set_salt(salt)` */
    method SetSalt(salt: Salt)
      modifies this`trace
      ensures trace == old(trace) + [Call.SetSalt(salt)]
    {
      trace := trace + [Call.SetSalt(salt)];
    }

    /** `methods.crypt_all(&count, NULL)`; the count it writes back comes from
        the search's oracle. */
    method CryptAll(count: int)
      modifies this`trace
      ensures trace == old(trace) + [Call.CryptAll(count)]
    {
      trace := trace + [Call.CryptAll(count)];
    }
  }
}
