/** Little-endian words and wrapping 32-bit arithmetic, as Rust's integers have them. */
module Bytes {
  type Byte = b: int | 0 <= b < 256

  const TWO_15: int := 0x8000
  const TWO_16: int := 0x1_0000
  const TWO_31: int := 0x8000_0000
  const TWO_32: int := 0x1_0000_0000
  const TWO_64: int := 0x1_0000_0000_0000_0000

  predicate IsI32(x: int) {
    -TWO_31 <= x < TWO_31
  }

  predicate IsI16(x: int) {
    -TWO_15 <= x < TWO_15
  }

  /** How many values `n` bytes can hold. */
  function Span(n: nat): (s: nat)
    ensures s >= 1
  {
    if n == 0 then 1 else 256 * Span(n - 1)
  }

  lemma Spans()
    ensures Span(2) == TWO_16 && Span(4) == TWO_32 && Span(8) == TWO_64
  {
    assert Span(2) == 256 * Span(1);
    assert Span(4) == 256 * (256 * Span(2));
    assert Span(8) == 256 * (256 * (256 * (256 * Span(4))));
  }

  /** `to_le_bytes`, in `n` bytes. */
  function ToLe(x: nat, n: nat): (bs: seq<Byte>)
    ensures |bs| == n
  {
    if n == 0 then [] else [x % 256] + ToLe(x / 256, n - 1)
  }

  /** `from_le_bytes`. */
  function FromLe(bs: seq<Byte>): (x: nat)
    ensures x < Span(|bs|)
  {
    if bs == [] then 0 else bs[0] + 256 * FromLe(bs[1..])
  }

  lemma {:induction false} FromToLe(x: nat, n: nat)
    ensures FromLe(ToLe(x, n)) == x % Span(n)
  {
    if n > 0 {
      FromToLe(x / 256, n - 1);
      SplitByte(x, Span(n - 1));
    }
  }

  lemma SplitByte(x: nat, m: nat)
    requires m >= 1
    ensures x % 256 + 256 * (x / 256 % m) == x % (256 * m)
  {
    var q, r := x / 256 / m, x / 256 % m;
    assert x == (256 * m) * q + (256 * r + x % 256);
    Remainder(x, 256 * m, q, 256 * r + x % 256);
  }

  lemma Remainder(x: nat, m: nat, q: nat, r: nat)
    requires m >= 1 && x == m * q + r && r < m
    ensures x % m == r
  {
    OneQuotient(m, q, r, x / m, x % m);
  }

  lemma OneQuotient(m: nat, q: nat, r: nat, q': nat, r': nat)
    requires r < m && r' < m && m * q + r == m * q' + r'
    ensures r == r'
  {
    if q > q' {
      Multiples(m, q, q');
    } else if q < q' {
      Multiples(m, q', q);
    }
  }

  lemma {:induction false} Multiples(m: nat, p: nat, q: nat)
    requires p > q
    ensures m * p >= m * q + m
    decreases p
  {
    OneMore(m, p - 1);
    if p > q + 1 {
      Multiples(m, p - 1, q);
    }
  }

  lemma OneMore(m: nat, p: nat)
    ensures m * (p + 1) == m * p + m
  {
  }

  /** A signed value as an unsigned word of `n` bytes, and back. */
  function Unsigned(x: int, n: nat): (u: nat) {
    x % Span(n)
  }

  function Signed(u: nat, n: nat): int {
    if 2 * u >= Span(n) then u - Span(n) else u
  }

  /** An `i32` of 4 bytes, or an `i16` of 2. */
  function ToBytes(x: int, n: nat): (bs: seq<Byte>)
    ensures |bs| == n
  {
    ToLe(Unsigned(x, n), n)
  }

  function FromBytes(bs: seq<Byte>): int {
    Signed(FromLe(bs), |bs|)
  }

  lemma BytesRoundTrip(x: int, n: nat)
    requires (n == 4 && IsI32(x)) || (n == 2 && IsI16(x))
    ensures FromBytes(ToBytes(x, n)) == x
  {
    hide ToLe, FromLe;
    Spans();
    FromToLe(Unsigned(x, n), n);
  }

  lemma WordRoundTrip(x: nat, n: nat)
    requires x < Span(n)
    ensures FromLe(ToLe(x, n)) == x
  {
    FromToLe(x, n);
    Small(x, Span(n));
  }

  lemma Small(x: nat, m: nat)
    requires x < m
    ensures x % m == x
  {
    Remainder(x, m, 0, x);
  }

  // ----- wrapping 32-bit arithmetic -----

  function Wrap(x: int): (r: int)
    ensures IsI32(r)
    ensures IsI32(x) ==> r == x
  {
    (x + TWO_31) % TWO_32 - TWO_31
  }

  /** The second difference of a value and the two before it: `q[t] - 2 q[t-1] + q[t-2]`. */
  function Difference(x: int, y: int, z: int): int {
    Wrap(Wrap(x - Wrap(2 * y)) + z)
  }

  function Restored(d: int, y: int, z: int): int {
    Wrap(Wrap(d + Wrap(2 * y)) - z)
  }

  /** How many times a word wraps around. */
  lemma WrapIsOff(x: int) returns (k: int)
    ensures Wrap(x) == x + TWO_32 * k
  {
    k := -((x + TWO_31) / TWO_32);
  }

  /** A difference gives its value back, wherever it wrapped. */
  lemma DifferenceRestores(x: int, y: int, z: int)
    requires IsI32(x)
    ensures Restored(Difference(x, y, z), y, z) == x
  {
    hide Wrap;
    var a := WrapIsOff(2 * y);
    var b := WrapIsOff(x - Wrap(2 * y));
    var c := WrapIsOff(Wrap(x - Wrap(2 * y)) + z);
    var d := Difference(x, y, z);
    var e := WrapIsOff(d + Wrap(2 * y));
    var f := WrapIsOff(Wrap(d + Wrap(2 * y)) - z);
    OneWord(x, Restored(d, y, z), b + c + e + f);
  }

  lemma OneWord(x: int, r: int, k: int)
    requires IsI32(x) && IsI32(r) && r == x + TWO_32 * k
    ensures r == x
  {
  }
}
