/**
 * The functions of `03_funciones.go`: two-operand arithmetic on Go's 64-bit
 * `int`, the variadic `sumarTodos`, a function passed as a value, and the
 * closure counter returned by `contador`.
 */
module Funciones {
  import opened GoInt

  /** `sumar`: `a + b` with wrap-around; the exact sum when it fits. */
  function Sumar(a: Int, b: Int): (r: Int)
    ensures (r - (a + b)) % Modulo == 0
    ensures MinInt <= a + b <= MaxInt ==> r == a + b
  {
    Wrap(a + b)
  }

  /** `multiplicar`: `a * b` with wrap-around; the exact product when it fits. */
  function Multiplicar(a: Int, b: Int): (r: Int)
    ensures (r - a * b) % Modulo == 0
    ensures MinInt <= a * b <= MaxInt ==> r == a * b
  {
    Wrap(a * b)
  }

  /** `sumarTodos(numeros...)`: the sum of all arguments, wrapped; 0 with no argument. */
  method SumarTodos(numeros: seq<Int>) returns (total: Int)
    ensures total == Wrap(Suma(numeros))
    ensures numeros == [] ==> total == 0
  {
    total := 0;
    var i := 0;
    while i < |numeros|
      invariant 0 <= i <= |numeros|
      invariant total == Wrap(Suma(numeros[..i]))
    {
      assert numeros[..i + 1][..i] == numeros[..i];
      WrapAdd(Suma(numeros[..i]), numeros[i]);
      total := Sumar(total, numeros[i]);
      i := i + 1;
    }
    assert numeros[..|numeros|] == numeros;
  }

  /**
   * Splitting the arguments of `sumarTodos` in two and adding the two
   * partial results with `sumar` gives the same 64-bit value, overflow or not.
   */
  lemma SumarTodosPartido(a: seq<Int>, b: seq<Int>)
    ensures Wrap(Suma(a + b)) == Sumar(Wrap(Suma(a)), Wrap(Suma(b)))
  {
    SumaConcatenada(a, b);
    WrapAdd(Suma(a), Wrap(Suma(b)));
    WrapAdd(Suma(b), Suma(a));
  }

  /** `sumarTodos(1, 2, 3, 4, 5)` is 15. */
  lemma SumarTodosDelEjemplo()
    ensures Wrap(Suma([1, 2, 3, 4, 5])) == 15
  {
    assert Suma([1, 2, 3, 4, 5]) == 15 by {
      assert [1, 2, 3, 4, 5][..4] == [1, 2, 3, 4];
      assert [1, 2, 3, 4][..3] == [1, 2, 3];
      assert [1, 2, 3][..2] == [1, 2];
      assert [1, 2][..1] == [1];
      assert [1][..0] == [];
    }
  }

  /** `aplicarOperacion`: calls the function it is given on the two operands. */
  function AplicarOperacion(a: Int, b: Int, operacion: (Int, Int) -> Int): (r: Int)
    ensures r == operacion(a, b)
  {
    operacion(a, b)
  }

  /** With `sumar` and `multiplicar` as values, `aplicarOperacion(10, 5, ·)` gives 15 and 50. */
  lemma AplicarOperacionDelEjemplo()
    ensures AplicarOperacion(10, 5, Sumar) == 15
    ensures AplicarOperacion(10, 5, Multiplicar) == 50
  {
  }

  /** The closure returned by `contador()`: its captured `count` is this object's field. */
  class Contador {
    var count: int

    /** `contador()`: a fresh closure whose captured variable starts at 0. */
    constructor ()
      ensures count == 0
    {
      count := 0;
    }

    /** Calling the closure: increments the captured variable and returns it. */
    method Llamar() returns (r: int)
      modifies this
      ensures count == old(count) + 1
      ensures r == count
    {
      count := count + 1;
      r := count;
    }
  }

  /** `main`'s closures: one counter answers 1, 2, 3; a second, independent one starts again at 1. */
  method ClausurasDelEjemplo() returns (llamadas: seq<int>, otro: int)
    ensures llamadas == [1, 2, 3]
    ensures otro == 1
  {
    var incrementar := new Contador();
    var a := incrementar.Llamar();
    var b := incrementar.Llamar();
    var c := incrementar.Llamar();
    llamadas := [a, b, c];
    var otroContador := new Contador();
    otro := otroContador.Llamar();
  }
}
