/** Go's integers, conversions and map walks. */
module GoBasics {

  const MIN_INT64: int := -0x8000_0000_0000_0000
  const MAX_INT64: int := 0x7fff_ffff_ffff_ffff
  const TWO_64: int := 0x1_0000_0000_0000_0000

  datatype Option<+T> = None | Some(value: T)

  datatype Result<+T, +E> = Ok(value: T) | Err(error: E)

  type int64 = x: int | MIN_INT64 <= x <= MAX_INT64

  /** Two's-complement wrap-around: the value an int64 operation leaves behind. */
  function Wrap64(x: int): int64 {
    if MIN_INT64 <= x <= MAX_INT64 then x else (x - MIN_INT64) % TWO_64 + MIN_INT64
  }

  lemma WrapInRange(x: int64)
    ensures Wrap64(x) == x
  {
  }

  lemma WrapIsCongruent(x: int) returns (k: int)
    ensures Wrap64(x) == x + TWO_64 * k
  {
    k := if MIN_INT64 <= x <= MAX_INT64 then 0 else -((x - MIN_INT64) / TWO_64);
  }

  lemma WrapOfCongruent(x: int, k: int)
    ensures Wrap64(x + TWO_64 * k) == Wrap64(x)
  {
    var y := x - MIN_INT64;
    assert (y + TWO_64 * k) % TWO_64 == y % TWO_64;
  }

  /** Wrapping at every step of a sum is the same as wrapping once at the end. */
  lemma WrapAdd(x: int, y: int)
    ensures Wrap64(Wrap64(x) + y) == Wrap64(x + y)
  {
    var k := WrapIsCongruent(x);
    WrapOfCongruent(x + y, k);
  }

  function Abs(x: int): nat {
    if x < 0 then -x else x
  }

  /** Go's conversion of a float to an integer: truncation toward zero. */
  function Trunc(x: real): (n: int)
    ensures 0.0 <= x ==> n as real <= x < n as real + 1.0
    ensures x < 0.0 ==> n as real - 1.0 < x <= n as real
  {
    if 0.0 <= x then x.Floor else -((-x).Floor)
  }

  /** Go's conversion to int64. Out of range the language leaves the value open; this is what amd64 yields. */
  function ToInt64(x: real): (n: int64)
    ensures MIN_INT64 <= Trunc(x) <= MAX_INT64 ==> n == Trunc(x)
  {
    if MIN_INT64 <= Trunc(x) <= MAX_INT64 then Trunc(x) else MIN_INT64
  }

  /** What a `float64` division guarded against a zero divisor returns. */
  function SafeDivide(a: real, b: real): real {
    if b == 0.0 then 0.0 else a / b
  }

  /** The next key of a map walk: any key that is left. */
  lemma SomeMember<T>(s: set<T>) returns (x: T)
    requires s != {}
    ensures x in s
  {
    x :| x in s;
  }
}
