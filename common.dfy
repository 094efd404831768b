/** Shared vocabulary of the model: optional values, the exceptions the Java code throws,
    vectors, substring search, and the fixed-width integer arithmetic of the JVM. */
module Common {

  /** Java's `Optional` and, where a reference may be null, the nullable reference. */
  datatype Option<T> = None | Some(value: T)

  /** The exception classes the modelled code throws. */
  datatype ExceptionKind =
    | ClassCast
    | NoSuchElement
    | NullPointer
    | IllegalArgument
    | Runtime
    | BoardFieldNotFound
    | HostConnectionNotReady
    | IndexOutOfBounds
    | ConcurrentModification

  /** A thrown exception: its class and its message. */
  datatype Failure = Failure(kind: ExceptionKind, message: string)

  /** The outcome of a call that returns a value or throws. */
  datatype Result<T> = Ok(value: T) | Err(failure: Failure)

  /** The outcome of a call that returns nothing or throws. */
  datatype Outcome = Pass | Fail(failure: Failure)

  /** A `Vector3f` location; single-precision rounding is not modelled. */
  datatype Location = Location(x: real, y: real, z: real)

  /** A Java `float` as far as the modelled checks look at it: a finite value (as a
      `real`, without rounding), not-a-number, or an infinity. */
  datatype Float = Finite(value: real) | NaN | PositiveInfinity | NegativeInfinity

  /** `part` occurs in `s` starting at index `i`. */
  predicate OccursAt(s: string, part: string, i: int)
  {
    0 <= i && i + |part| <= |s| && s[i..i + |part|] == part
  }

  /** Java's `s.contains(part)`. */
  predicate Contains(s: string, part: string)
  {
    exists i :: 0 <= i <= |s| && OccursAt(s, part, i)
  }

  lemma ContainsWitness(s: string, part: string, i: int)
    requires OccursAt(s, part, i)
    ensures Contains(s, part)
  {
  }

  /** Whatever surrounds `part`, the result contains it. */
  lemma {:induction false} ContainsInConcat(pre: string, part: string, post: string)
    ensures Contains(pre + part + post, part)
  {
    var s := pre + part + post;
    assert s[|pre|..|pre| + |part|] == part;
    ContainsWitness(s, part, |pre|);
  }

  /** What occurs in a part of `s` occurs in `s`. */
  lemma {:induction false} ContainsTransitive(s: string, mid: string, part: string)
    requires Contains(s, mid) && Contains(mid, part)
    ensures Contains(s, part)
  {
    var i :| 0 <= i <= |s| && OccursAt(s, mid, i);
    var j :| 0 <= j <= |mid| && OccursAt(mid, part, j);
    forall k | 0 <= k < |part|
      ensures s[i + j + k] == part[k]
    {
      assert s[i..i + |mid|][j + k] == mid[j + k];
      assert mid[j..j + |part|][k] == part[k];
    }
    assert s[i + j..i + j + |part|] == part;
    ContainsWitness(s, part, i + j);
  }

  /** No element occurs twice in `s`. */
  predicate NoRepeats<T(==)>(s: seq<T>)
  {
    forall i, j :: 0 <= i < j < |s| ==> s[i] != s[j]
  }

  const TwoTo32: int := 0x1_0000_0000
  const MinInt32: int := -0x8000_0000
  const MaxInt32: int := 0x7fff_ffff

  /** The value a Java `int` computation ends with: two's complement wrap-around to 32 bits. */
  function Wrap32(x: int): (r: int)
    ensures MinInt32 <= r <= MaxInt32
    ensures (r - x) % TwoTo32 == 0
  {
    (x - MinInt32) % TwoTo32 + MinInt32
  }

  predicate IsInt32(x: int) { MinInt32 <= x <= MaxInt32 }

  /** Java's `(byte)` cast: the low eight bits, read as two's complement. */
  function ToByte(x: int): (r: int)
    ensures -128 <= r <= 127
    ensures (r - x) % 256 == 0
  {
    (x + 128) % 256 - 128
  }

  lemma {:induction false} ToByteKeepsBytes(x: int)
    requires -128 <= x <= 127
    ensures ToByte(x) == x
  {
    assert (x + 128) % 256 == x + 128;
  }

  /** Java's integer division, which truncates toward zero (Dafny's `/` is Euclidean). */
  function JavaDiv(a: int, b: int): (q: int)
    requires b > 0
    ensures a >= 0 ==> q == a / b
    ensures a < 0 ==> q == -((-a) / b)
  {
    if a >= 0 then a / b else -((-a) / b)
  }

  /** Clamping to the closed interval [lo, hi]. */
  function Clamp(x: int, lo: int, hi: int): (r: int)
    requires lo <= hi
    ensures lo <= r <= hi
    ensures lo <= x <= hi ==> r == x
    ensures x < lo ==> r == lo
    ensures x > hi ==> r == hi
  {
    if x < lo then lo else if x > hi then hi else x
  }

  /** The decimal digits of a natural number, most significant first. */
  function NatToString(n: nat): (s: string)
    ensures |s| > 0 && forall i :: 0 <= i < |s| ==> '0' <= s[i] <= '9'
  {
    var d := ['0', '1', '2', '3', '4', '5', '6', '7', '8', '9'][n % 10];
    if n < 10 then [d] else NatToString(n / 10) + [d]
  }

  /** Java's decimal rendering of an `int` in string concatenation. */
  function IntToString(n: int): string
  {
    if n < 0 then "-" + NatToString(-n) else NatToString(n)
  }
}
