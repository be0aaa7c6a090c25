/**
 * Go's `int` on a 64-bit platform: two's-complement arithmetic that wraps
 * modulo 2^64.  Used by the helpers whose whole point is arithmetic on
 * caller-chosen operands.
 */
module GoInt {

  const Modulo: int := 0x1_0000_0000_0000_0000
  const MinInt: int := -0x8000_0000_0000_0000
  const MaxInt: int := 0x7FFF_FFFF_FFFF_FFFF

  /** A value of Go's 64-bit `int`. */
  type Int = x: int | MinInt <= x <= MaxInt

  /** The 64-bit value a mathematical result wraps to. */
  function Wrap(x: int): (r: Int)
    ensures (r - x) % Modulo == 0
    ensures MinInt <= x <= MaxInt ==> r == x
  {
    var m := (x - MinInt) % Modulo;
    assert x - MinInt == Modulo * ((x - MinInt) / Modulo) + m;
    m + MinInt
  }

  /** Sums and differences of multiples of 2^64 are multiples of 2^64. */
  lemma MultiplosCombinados(a: int, b: int)
    requires a % Modulo == 0 && b % Modulo == 0
    ensures (a + b) % Modulo == 0 && (a - b) % Modulo == 0
  {
    var qa, qb := a / Modulo, b / Modulo;
    assert a == Modulo * qa;
    assert b == Modulo * qb;
    assert a + b == Modulo * (qa + qb);
    assert a - b == Modulo * (qa - qb);
  }

  /** A 64-bit value congruent to `x` modulo 2^64 is the one `Wrap` picks. */
  lemma WrapUnique(x: int, r: int)
    requires MinInt <= r <= MaxInt
    requires (r - x) % Modulo == 0
    ensures r == Wrap(x)
  {
    var w := Wrap(x);
    var d := r - w;
    MultiplosCombinados(r - x, w - x);
    assert d == (r - x) - (w - x);
    assert -Modulo < d < Modulo;
    assert d == Modulo * (d / Modulo);
  }

  /** Numbers congruent modulo 2^64 wrap to the same 64-bit value. */
  lemma WrapCongruente(x: int, y: int)
    requires (x - y) % Modulo == 0
    ensures Wrap(x) == Wrap(y)
  {
    MultiplosCombinados(Wrap(x) - x, x - y);
    assert Wrap(x) - y == (Wrap(x) - x) + (x - y);
    WrapUnique(y, Wrap(x));
  }

  /** Wrapping an intermediate sum changes nothing: wrap-around addition is associative. */
  lemma WrapAdd(x: int, y: int)
    ensures Wrap(Wrap(x) + y) == Wrap(x + y)
  {
    assert (Wrap(x) + y) - (x + y) == Wrap(x) - x;
    WrapCongruente(Wrap(x) + y, x + y);
  }

  /** The mathematical sum of a sequence, the value a `total += x` loop tracks modulo 2^64. */
  function Suma(s: seq<int>): int
    decreases |s|
  {
    if s == [] then 0 else Suma(s[..|s| - 1]) + s[|s| - 1]
  }

  /** Summing a concatenation sums both halves. */
  lemma {:induction false} SumaConcatenada(a: seq<int>, b: seq<int>)
    ensures Suma(a + b) == Suma(a) + Suma(b)
    decreases |b|
  {
    if b == [] {
      assert a + b == a;
    } else {
      var b' := b[..|b| - 1];
      assert (a + b)[..|a + b| - 1] == a + b';
      SumaConcatenada(a, b');
    }
  }
}
