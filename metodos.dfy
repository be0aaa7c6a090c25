/**
 * The stateful receivers of `08_metodos.go`: the `Contador` counter, the
 * value- and pointer-receiver methods of `Persona`, and the chainable
 * `Constructor`.  A Go struct is a value, so `Persona` is a datatype and a
 * pointer receiver is a `Puntero<Persona>`; `Contador` and `Constructor` are
 * only ever used through their address, so they are classes.
 */
module Metodos {
  import opened GoInt
  import opened GoPointers

  /** `Contador`: a counter whose value only its methods change. */
  class Contador {
    var valor: int

    /** `Contador{valor: v}`. */
    constructor (v: int)
      ensures valor == v
    {
      valor := v;
    }

    method Incrementar()
      modifies this
      ensures valor == old(valor) + 1
    {
      valor := valor + 1;
    }

    method Decrementar()
      modifies this
      ensures valor == old(valor) - 1
    {
      valor := valor - 1;
    }

    /** `Valor` only reads the counter. */
    method Valor() returns (r: int)
      ensures r == valor
    {
      r := valor;
    }

    method Reset()
      modifies this
      ensures valor == 0
    {
      valor := 0;
    }
  }

  /** The counter sequence of `main`: the values read initially, after three increments, a decrement and a reset. */
  method SecuenciaContador() returns (lecturas: seq<int>)
    ensures lecturas == [0, 3, 2, 0]
  {
    var cont := new Contador(0);
    var v0 := cont.Valor();
    cont.Incrementar();
    cont.Incrementar();
    cont.Incrementar();
    var v1 := cont.Valor();
    cont.Decrementar();
    var v2 := cont.Valor();
    cont.Reset();
    var v3 := cont.Valor();
    lecturas := [v0, v1, v2, v3];
  }

  datatype Persona = Persona(nombre: string, edad: int)

  /**
   * `CumpleaniosIncorrecto`: the value receiver is a copy; the method can
   * only return the age the copy reaches, the caller's struct is a value it
   * never sees.
   */
  function CumpleaniosIncorrecto(p: Persona): (edadCopia: int)
    ensures edadCopia == p.edad + 1
  {
    p.(edad := p.edad + 1).edad
  }

  /** `Cumpleanios` through a pointer receiver: one year more, same name. */
  method Cumpleanios(p: Puntero<Persona>)
    modifies p
    ensures p.valor.edad == old(p.valor.edad) + 1
    ensures p.valor.nombre == old(p.valor.nombre)
  {
    p.valor := p.valor.(edad := p.valor.edad + 1);
  }

  /** `CambiarNombre`: only the name changes. */
  method CambiarNombre(p: Puntero<Persona>, nuevoNombre: string)
    modifies p
    ensures p.valor == old(p.valor).(nombre := nuevoNombre)
  {
    p.valor := p.valor.(nombre := nuevoNombre);
  }

  /** The receiver demonstration of `main`: Ana stays 25 after the value method, then turns 26 and is renamed. */
  method ReceptoresDelEjemplo() returns (trasIncorrecto: Persona, trasCumpleanios: Persona, trasCambio: Persona)
    ensures trasIncorrecto == Persona("Ana", 25)
    ensures trasCumpleanios == Persona("Ana", 26)
    ensures trasCambio == Persona("Ana María", 26)
  {
    var persona := new Puntero(Persona("Ana", 25));
    var _ := CumpleaniosIncorrecto(persona.valor);
    trasIncorrecto := persona.valor;
    Cumpleanios(persona);
    trasCumpleanios := persona.valor;
    CambiarNombre(persona, "Ana María");
    trasCambio := persona.valor;
  }

  /** `Constructor`: a builder whose methods update it and return the same pointer. */
  class Constructor {
    var valor: Int

    constructor (v: Int)
      ensures valor == v
    {
      valor := v;
    }

    method Sumar(n: Int) returns (c: Constructor)
      modifies this
      ensures c == this
      ensures valor == Wrap(old(valor) + n)
    {
      valor := Wrap(valor + n);
      c := this;
    }

    method Multiplicar(n: Int) returns (c: Constructor)
      modifies this
      ensures c == this
      ensures valor == Wrap(old(valor) * n)
    {
      valor := Wrap(valor * n);
      c := this;
    }

    function Obtener(): (r: Int)
      reads this
      ensures r == valor
    {
      valor
    }
  }

  /** `builder.Sumar(5).Multiplicar(2).Obtener()` from 10 is 30. */
  method Encadenamiento() returns (resultado: Int)
    ensures resultado == 30
  {
    var builder := new Constructor(10);
    var c1 := builder.Sumar(5);
    var c2 := c1.Multiplicar(2);
    resultado := c2.Obtener();
  }
}
