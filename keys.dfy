/**
 * The synthetic candidate passwords loaded before every trial: key `i` is
 * "tune" followed by the four decimal digits of `i mod 10000`.
 */
module Keys {
  import opened Kernel

  /** The character of decimal digit `d`. */
  function Digit(d: int): (c: char)
    requires 0 <= d < 10
    ensures '0' <= c <= '9'
  {
    ('0' as int + d) as char
  }

  /** The value of a decimal digit character. */
  function DigitValue(c: char): int
  {
    c as int - '0' as int
  }

  /** The key loaded at index `i`. */
  function TuneKey(i: nat): (key: string)
    ensures |key| == 8 && key[..4] == "tune"
    ensures forall j :: 4 <= j < 8 ==> '0' <= key[j] <= '9'
  {
    var v := i % 10000;
    "tune" + [Digit(v / 1000), Digit(v / 100 % 10), Digit(v / 10 % 10), Digit(v % 10)]
  }

  /** The number an eight-character key spells in its last four digits. */
  function KeyIndex(key: string): int
    requires |key| == 8
  {
    1000 * DigitValue(key[4]) + 100 * DigitValue(key[5]) + 10 * DigitValue(key[6]) + DigitValue(key[7])
  }

  /** A number below 10000 is the sum of its four decimal digits times their
      place values. */
  lemma FourDigits(v: int)
    requires 0 <= v < 10000
    ensures 1000 * (v / 1000) + 100 * (v / 100 % 10) + 10 * (v / 10 % 10) + v % 10 == v
  {
    assert v == 10 * (v / 10) + v % 10;
    assert v / 10 == 10 * (v / 100) + v / 10 % 10;
    assert v / 100 == 10 * (v / 1000) + v / 100 % 10;
  }

  /** A tune key's digits spell its index modulo 10000. */
  lemma KeyIndexOfTuneKey(i: nat)
    ensures KeyIndex(TuneKey(i)) == i % 10000
  {
    var v := i % 10000;
    var key := TuneKey(i);
    assert key[4] == Digit(v / 1000) && key[5] == Digit(v / 100 % 10);
    assert key[6] == Digit(v / 10 % 10) && key[7] == Digit(v % 10);
    FourDigits(v);
  }

  /** Two indices get the same key exactly when they agree modulo 10000. */
  lemma TuneKeyInjective(i: nat, j: nat)
    ensures TuneKey(i) == TuneKey(j) <==> i % 10000 == j % 10000
  {
    if TuneKey(i) == TuneKey(j) {
      KeyIndexOfTuneKey(i);
      KeyIndexOfTuneKey(j);
    }
  }

  /** Division by a power of ten is determined by a quotient and a
      remainder below the divisor. */
  lemma DivTen(x: int, q: int, r: int)
    requires x == 10 * q + r && 0 <= r < 10
    ensures x / 10 == q && x % 10 == r
  {
  }

  lemma DivHundred(x: int, q: int, r: int)
    requires x == 100 * q + r && 0 <= r < 100
    ensures x / 100 == q
  {
  }

  lemma DivThousand(x: int, q: int, r: int)
    requires x == 1000 * q + r && 0 <= r < 1000
    ensures x / 1000 == q
  {
  }

  /** Each digit the key buffer receives from the index itself is the
      digit of the index modulo 10000 at the same position. */
  lemma ThousandsDigit(i: nat)
    ensures i / 1000 % 10 == i % 10000 / 1000
  {
    var q, r := i / 10000, i % 10000;
    var e, s := r / 1000, r % 1000;
    DivThousand(i, 10 * q + e, s);
    DivTen(10 * q + e, q, e);
  }

  lemma HundredsDigit(i: nat)
    ensures i / 100 % 10 == i % 10000 / 100 % 10
  {
    var q, r := i / 10000, i % 10000;
    var e, s := r / 100, r % 100;
    DivHundred(i, 100 * q + e, s);
    DivTen(100 * q + e, 10 * q + e / 10, e % 10);
  }

  lemma TensDigit(i: nat)
    ensures i / 10 % 10 == i % 10000 / 10 % 10
  {
    var q, r := i / 10000, i % 10000;
    var e, s := r / 10, r % 10;
    DivTen(i, 1000 * q + e, s);
    DivTen(1000 * q + e, 100 * q + e / 10, e % 10);
  }

  lemma OnesDigit(i: nat)
    ensures i % 10 == i % 10000 % 10
  {
    assert i == 10 * (1000 * (i / 10000)) + i % 10000;
  }

  /** The digits written into the key buffer, one position at a time, from
      the index itself, make up the key of that index. */
  lemma BufferDigits(i: nat)
    ensures "tune" + [Digit(i / 1000 % 10), Digit(i / 100 % 10), Digit(i / 10 % 10), Digit(i % 10)] == TuneKey(i)
  {
    ThousandsDigit(i);
    HundredsDigit(i);
    TensDigit(i);
    OnesDigit(i);
  }

  /** The `set_key` calls of one trial: indices 0 to kpc - 1 in order, each
      with its tune key. */
  function KeyCalls(kpc: int): (calls: seq<Call>)
    ensures |calls| == if kpc < 0 then 0 else kpc
    ensures forall i :: 0 <= i < |calls| ==> calls[i] == Call.SetKey(TuneKey(i), i)
  {
    seq(if kpc < 0 then 0 else kpc, i requires 0 <= i => Call.SetKey(TuneKey(i), i))
  }

  /** One more index appends one more `set_key` call, after any earlier
      calls. */
  lemma KeyCallsNext(prefix: seq<Call>, i: nat)
    ensures prefix + KeyCalls(i) + [Call.SetKey(TuneKey(i), i)] == prefix + KeyCalls(i + 1)
  {
    var a, b := KeyCalls(i + 1), KeyCalls(i) + [Call.SetKey(TuneKey(i), i)];
    assert |a| == |b|;
    forall j | 0 <= j < |a| ensures a[j] == b[j] {
    }
    assert a == b;
  }

  /** The body of the key loading loop before `set_key`: rewrite the four
      digit positions of the "tune" buffer from index `i`. */
  method WriteDigits(key: array<char>, i: nat)
    requires key.Length == 8 && key[..4] == "tune"
    modifies key
    ensures key[..] == TuneKey(i) && key[..4] == "tune"
  {
    key[4] := Digit(i / 1000 % 10);
    key[5] := Digit(i / 100 % 10);
    key[6] := Digit(i / 10 % 10);
    key[7] := Digit(i % 10);
    BufferDigits(i);
    assert key[..] == key[..4] + [key[4], key[5], key[6], key[7]];
  }

  /** The key loading loop: the eight-character key buffer starts as
      "tune0000", its four digit positions are rewritten for every index and
      the buffer is handed to `set_key`. */
  method LoadTuneKeys(fmt: Format, kpc: int)
    modifies fmt`trace
    ensures fmt.trace == old(fmt.trace) + KeyCalls(kpc)
  {
    ghost var before := fmt.trace;
    var key := new char[8];
    key[0], key[1], key[2], key[3] := 't', 'u', 'n', 'e';
    key[4], key[5], key[6], key[7] := '0', '0', '0', '0';
    assert key[..4] == "tune";
    var i := 0;
    while i < kpc
      invariant 0 <= i <= (if kpc < 0 then 0 else kpc)
      invariant key.Length == 8 && key[..4] == "tune"
      invariant fmt.trace == before + KeyCalls(i)
    {
      WriteDigits(key, i);
      fmt.SetKey(key[..], i);
      KeyCallsNext(before, i);
      i := i + 1;
    }
    assert i == (if kpc < 0 then 0 else kpc);
  }
}
