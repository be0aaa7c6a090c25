/**
 * The slice helpers of `ejercicios/05_arrays_slices.go`: an accumulator sum,
 * a running maximum, in-place doubling, and the slicing and `copy` behaviour
 * its `main` demonstrates.  Elements are Go's 64-bit `int`.
 */
module ArraysSlices {
  import opened GoInt

  /** `sumarSlice`: the total wraps like Go's `+=`; it is the exact sum when that sum fits. */
  method SumarSlice(numeros: seq<Int>) returns (total: Int)
    ensures total == Wrap(Suma(numeros))
    ensures MinInt <= Suma(numeros) <= MaxInt ==> total == Suma(numeros)
    ensures numeros == [] ==> total == 0
  {
    total := 0;
    for i := 0 to |numeros|
      invariant total == Wrap(Suma(numeros[..i]))
    {
      assert numeros[..i + 1][..i] == numeros[..i];
      WrapAdd(Suma(numeros[..i]), numeros[i]);
      total := Wrap(total + numeros[i]);
    }
    assert numeros[..|numeros|] == numeros;
  }

  /** `encontrarMaximo`: 0 for an empty slice, otherwise an element no smaller than any other. */
  method EncontrarMaximo(numeros: seq<Int>) returns (max: Int)
    ensures numeros == [] ==> max == 0
    ensures numeros != [] ==> max in numeros
    ensures forall k :: 0 <= k < |numeros| ==> numeros[k] <= max
  {
    if |numeros| == 0 {
      return 0;
    }
    max := numeros[0];
    for i := 0 to |numeros|
      invariant max in numeros
      invariant forall k :: 0 <= k < i ==> numeros[k] <= max
    {
      if numeros[i] > max {
        max := numeros[i];
      }
    }
  }

  /** Every element doubled with Go's wrap-around multiplication. */
  function Duplicado(s: seq<Int>): (r: seq<Int>)
    ensures |r| == |s|
    ensures forall k :: 0 <= k < |s| ==> r[k] == Wrap(2 * (s[k] as int))
  {
    seq(|s|, k requires 0 <= k < |s| => Wrap(2 * (s[k] as int)))
  }

  /** `duplicar`: rewrites the caller's backing array in place. */
  method Duplicar(numeros: array<Int>)
    modifies numeros
    ensures numeros[..] == Duplicado(old(numeros[..]))
  {
    for i := 0 to numeros.Length
      invariant forall k :: 0 <= k < i ==> numeros[k] == Wrap(2 * (old(numeros[k]) as int))
      invariant forall k :: i <= k < numeros.Length ==> numeros[k] == old(numeros[k])
    {
      numeros[i] := Wrap(2 * (numeros[i] as int));
    }
  }

  /** Doubling every element doubles the sum, modulo 2^64. */
  lemma {:induction false} DuplicadoCongruente(s: seq<Int>)
    ensures (Suma(Duplicado(s)) - 2 * Suma(s)) % Modulo == 0
    decreases |s|
  {
    if s != [] {
      var s' := s[..|s| - 1];
      var x: int := s[|s| - 1];
      assert Duplicado(s)[..|s| - 1] == Duplicado(s');
      DuplicadoCongruente(s');
      var d := Suma(Duplicado(s')) - 2 * Suma(s');
      var e := Wrap(2 * x) - 2 * x;
      assert Suma(Duplicado(s)) - 2 * Suma(s) == d + e;
      MultiplosCombinados(d, e);
    }
  }

  /** Summing after `duplicar` gives twice the old sum, wrapped. */
  lemma SumaDuplicada(s: seq<Int>)
    ensures Wrap(Suma(Duplicado(s))) == Wrap(2 * Suma(s))
  {
    DuplicadoCongruente(s);
    WrapCongruente(Suma(Duplicado(s)), 2 * Suma(s));
  }

  /** `s[inicio:fin]` is half-open: `numeros2[1:4]`, `[:3]` and `[3:]` of the example. */
  lemma SubslicesDelEjemplo()
    ensures var numeros2: seq<Int> := [10, 20, 30, 40, 50, 60];
      && numeros2[1..4] == [20, 30, 40]
      && numeros2[..3] == [10, 20, 30]
      && numeros2[3..] == [40, 50, 60]
      && numeros2[..] == numeros2
  {
  }

  /**
   * Go's `copy(dst, src)`: copies `min(len(dst), len(src))` elements from the
   * start of `src` and returns that count; the rest of `dst` is untouched.
   */
  method Copiar(dst: array<Int>, src: array<Int>) returns (n: nat)
    modifies dst
    ensures n == if dst.Length < src.Length then dst.Length else src.Length
    ensures dst[..n] == old(src[..n])
    ensures dst[n..] == old(dst[n..])
  {
    n := if dst.Length < src.Length then dst.Length else src.Length;
    for i := 0 to n
      invariant forall k :: 0 <= k < i ==> dst[k] == old(src[k])
      invariant forall k :: i <= k < dst.Length ==> dst[k] == old(dst[k])
      invariant forall k :: i <= k < src.Length ==> src[k] == old(src[k])
    {
      dst[i] := src[i];
    }
  }

  /** The `copy` demonstration: writing the copy after `copy` leaves the original `[1 2 3]`. */
  method CopiaIndependiente() returns (original: array<Int>, copia2: array<Int>)
    ensures original[..] == [1, 2, 3]
    ensures copia2[..] == [999, 2, 3]
  {
    original := new Int[3] [1, 2, 3];
    copia2 := new Int[original.Length];
    var _ := Copiar(copia2, original);
    copia2[0] := 999;
  }
}
