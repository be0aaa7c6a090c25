/**
 * The struct helpers of `ejercicios/07_structs.go`: `Persona` is a value,
 * compared field by field and copied on assignment; `cumpleanios` changes it
 * through a pointer.
 */
module Structs {
  import opened GoPointers

  datatype Persona = Persona(nombre: string, edad: int, email: string)

  /** `crearPersona`: a struct literal whose fields are the arguments. */
  function CrearPersona(nombre: string, edad: int, email: string): (p: Persona)
    ensures p.nombre == nombre && p.edad == edad && p.email == email
  {
    Persona(nombre, edad, email)
  }

  /** `cumpleanios(&persona)`: one year more; name and email unchanged. */
  method Cumpleanios(p: Puntero<Persona>)
    modifies p
    ensures p.valor.edad == old(p.valor.edad) + 1
    ensures p.valor.nombre == old(p.valor.nombre) && p.valor.email == old(p.valor.email)
  {
    p.valor := p.valor.(edad := p.valor.edad + 1);
  }

  /** `==` on structs compares every field: equal exactly when all three fields are equal. */
  lemma IgualdadPorCampos(a: Persona, b: Persona)
    ensures a == b <==> a.nombre == b.nombre && a.edad == b.edad && a.email == b.email
  {
  }

  /** `crearPersona` builds every `Persona` and only from its own fields. */
  lemma CrearPersonaInyectiva(a: Persona)
    ensures CrearPersona(a.nombre, a.edad, a.email) == a
  {
  }

  /** `main`'s comparisons: per1 == per2 and per1 != per3. */
  lemma ComparacionDelEjemplo()
    ensures Persona("Ana", 25, "ana@email.com") == Persona("Ana", 25, "ana@email.com")
    ensures Persona("Ana", 25, "ana@email.com") != Persona("Carlos", 25, "carlos@email.com")
  {
  }

  /** `copia := original; copia.Nombre = ...`: assignment copies, so the original keeps its fields. */
  method CopiaDelEjemplo() returns (original: Persona, copia: Persona)
    ensures original == Persona("Original", 30, "original@email.com")
    ensures copia == Persona("Copia Modificada", 30, "original@email.com")
  {
    original := Persona("Original", 30, "original@email.com");
    copia := original;
    copia := copia.(nombre := "Copia Modificada");
  }

  /** `cumpleanios(&persona)` in `main`: Roberto turns 41. */
  method CumpleaniosDelEjemplo() returns (persona: Persona)
    ensures persona == Persona("Roberto", 41, "roberto@email.com")
  {
    var p := new Puntero(Persona("Roberto", 40, "roberto@email.com"));
    Cumpleanios(p);
    persona := p.valor;
  }
}
