/**
 * The pass-by-value and pass-by-pointer helpers of `10_punteros.go`.  A Go
 * variable whose address is taken is a `Puntero`; a struct is a datatype
 * value; a slice shares its backing array with the caller, so it is an
 * `array`; a map is a reference, held here in a `Puntero` cell so that the
 * callee's insertion is visible to the caller.
 */
module Punteros {
  import opened GoInt
  import opened GoPointers

  /** `duplicarValor`: doubles its own copy; what it returns is that copy, the caller's variable is untouched. */
  function DuplicarValor(n: Int): (copia: Int)
    ensures (copia - 2 * n) % Modulo == 0
    ensures MinInt <= 2 * n <= MaxInt ==> copia == 2 * n
  {
    Wrap(n * 2)
  }

  /** `duplicarReferencia`: `*n = *n * 2`, with wrap-around. */
  method DuplicarReferencia(n: Puntero<Int>)
    modifies n
    ensures n.valor == Wrap(2 * old(n.valor))
  {
    n.valor := Wrap(n.valor * 2);
  }

  /** `main`'s comparison: after `duplicarValor(a)` a is still 5; after `duplicarReferencia(&b)` b is 10. */
  method PasoPorValorYReferencia() returns (a: Int, b: Int)
    ensures a == 5 && b == 10
  {
    a := 5;
    var _ := DuplicarValor(a);
    var pb := new Puntero(5);
    DuplicarReferencia(pb);
    b := pb.valor;
  }

  datatype Persona = Persona(nombre: string, edad: int)

  /** `modificarPersonaValor`: sets the age of its own copy to 100 and returns that copy. */
  function ModificarPersonaValor(p: Persona): (copia: Persona)
    ensures copia.edad == 100 && copia.nombre == p.nombre
  {
    p.(edad := 100)
  }

  /** `modificarPersonaPuntero`: the caller's age becomes 100, its name stays. */
  method ModificarPersonaPuntero(p: Puntero<Persona>)
    modifies p
    ensures p.valor.edad == 100
    ensures p.valor.nombre == old(p.valor.nombre)
  {
    p.valor := p.valor.(edad := 100);
  }

  /** `main`'s struct demonstration: persona1 is unchanged by the value call, persona2 reaches 100 through the pointer. */
  method PersonasDelEjemplo() returns (persona1: Persona, persona2: Persona)
    ensures persona1 == Persona("Ana", 25)
    ensures persona2 == Persona("Carlos", 100)
  {
    persona1 := Persona("Ana", 25);
    var p2 := new Puntero(Persona("Carlos", 30));
    p2.valor := p2.valor.(edad := 31);
    var _ := ModificarPersonaValor(persona1);
    ModificarPersonaPuntero(p2);
    persona2 := p2.valor;
  }

  /** `modificarSlice`: the caller sees element 0 become 999; Go panics on an empty slice. */
  method ModificarSlice(s: array<Int>)
    requires s.Length >= 1
    modifies s
    ensures s[0] == 999
    ensures forall k :: 1 <= k < s.Length ==> s[k] == old(s[k])
  {
    s[0] := 999;
  }

  /** `modificarMapa`: the caller's map gains (or overwrites) key "b" with 2, all other keys kept. */
  method ModificarMapa(m: Puntero<map<string, Int>>)
    modifies m
    ensures "b" in m.valor && m.valor["b"] == 2
    ensures forall k :: k in old(m.valor) && k != "b" ==> k in m.valor && m.valor[k] == old(m.valor)[k]
    ensures m.valor.Keys == old(m.valor).Keys + {"b"}
  {
    m.valor := m.valor["b" := 2];
  }

  /** `GranStruct`: a struct holding a `[1000]int` array, which is part of the struct's value. */
  datatype GranStruct = GranStruct(datos: seq<Int>)

  const TamanoDatos: nat := 1000

  /** `&GranStruct{}`: every element is Go's zero value. */
  function GranStructCero(): (g: GranStruct)
    ensures |g.datos| == TamanoDatos
    ensures forall k :: 0 <= k < TamanoDatos ==> g.datos[k] == 0
  {
    GranStruct(seq(TamanoDatos, _ => 0))
  }

  /** `procesarGranStruct`: writes `Datos[0] = 1` through the pointer and nothing else. */
  method ProcesarGranStruct(g: Puntero<GranStruct>)
    requires |g.valor.datos| == TamanoDatos
    modifies g
    ensures |g.valor.datos| == TamanoDatos
    ensures g.valor.datos[0] == 1
    ensures forall k :: 1 <= k < TamanoDatos ==> g.valor.datos[k] == old(g.valor.datos[k])
  {
    g.valor := g.valor.(datos := g.valor.datos[0 := 1]);
  }

  /** Pointer comparison: two variables holding 10 have different addresses but equal contents. */
  method ComparacionDelEjemplo() returns (p1IgualP2: bool, p1IgualP3: bool, valoresIguales: bool)
    ensures !p1IgualP2 && p1IgualP3 && valoresIguales
  {
    var p1 := new Puntero(10);
    var p2 := new Puntero(10);
    var p3 := p1;
    p1IgualP2 := p1 == p2;
    p1IgualP3 := p1 == p3;
    valoresIguales := p1.valor == p2.valor;
  }

  /** Writing through `p = &x` changes `x`: `*p = 100` makes `x` read 100. */
  method EscrituraPorPuntero() returns (x: int)
    ensures x == 100
  {
    var celdaX := new Puntero(42);
    var p := celdaX;
    p.valor := 100;
    x := celdaX.valor;
  }
}
