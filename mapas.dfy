/**
 * The map helpers of the maps lesson: counting words, grouping names by
 * their first byte, and finding the key with the largest value.  Go's map
 * iteration order is unspecified, so the last one picks its next key
 * nondeterministically.
 */
module Mapas {
  import opened GoText

  /** Sum of the values of a map, in whatever order its keys are taken. */
  ghost function SumaValores<K>(m: map<K, int>): int
    decreases |m|
  {
    if |m| == 0 then 0
    else
      var k :| k in m;
      m[k] + SumaValores(m - {k})
  }

  /** A map holding exactly the multiplicities of a multiset sums to its size. */
  lemma {:induction false} SumaMultiset<K>(m: map<K, int>, ms: multiset<K>)
    requires forall k :: k in m <==> ms[k] > 0
    requires forall k :: k in m ==> m[k] == ms[k]
    ensures SumaValores(m) == |ms|
    decreases |m|
  {
    if |m| != 0 {
      var k :| k in m && SumaValores(m) == m[k] + SumaValores(m - {k});
      var resto := ms[k := 0];
      CardinalSinElemento(ms, k);
      forall j ensures j in m - {k} <==> resto[j] > 0 {
      }
      SumaMultiset(m - {k}, resto);
    }
  }

  /** Dropping every copy of `k` from a multiset removes `ms[k]` elements. */
  lemma CardinalSinElemento<K>(ms: multiset<K>, k: K)
    ensures |ms[k := 0]| + ms[k] == |ms|
  {
    assert ms == ms[k := 0] + multiset{}[k := ms[k]];
  }

  /** The contents of `contarPalabras`'s result: every word seen, with its number of occurrences. */
  ghost predicate EsConteo(conteo: map<string, int>, palabras: seq<string>)
  {
    && (forall w :: w in conteo <==> w in palabras)
    && (forall w :: w in conteo ==> conteo[w] == multiset(palabras)[w])
  }

  /** `contarPalabras`. */
  method ContarPalabras(palabras: seq<string>) returns (conteo: map<string, int>)
    ensures EsConteo(conteo, palabras)
  {
    conteo := map[];
    for i := 0 to |palabras|
      invariant EsConteo(conteo, palabras[..i])
    {
      var palabra := palabras[i];
      assert palabras[..i + 1] == palabras[..i] + [palabra];
      conteo := conteo[palabra := (if palabra in conteo then conteo[palabra] else 0) + 1];
    }
    assert palabras[..|palabras|] == palabras;
  }

  /** The counts add up to the number of words. */
  lemma ConteoSuma(conteo: map<string, int>, palabras: seq<string>)
    requires EsConteo(conteo, palabras)
    ensures SumaValores(conteo) == |palabras|
  {
    SumaMultiset(conteo, multiset(palabras));
  }

  /** `rune(nombre[0])`: the first byte of the UTF-8 encoding, read as a rune. */
  function Inicial(nombre: string): (c: char)
    requires |nombre| > 0
    ensures nombre[0] < 128 as char ==> c == nombre[0]
  {
    PrimerByte(nombre[0]) as char
  }

  predicate NoVacios(nombres: seq<string>)
  {
    forall i :: 0 <= i < |nombres| ==> |nombres[i]| > 0
  }

  /** The names with initial `c`, in input order. */
  function Grupo(nombres: seq<string>, c: char): (g: seq<string>)
    requires NoVacios(nombres)
    ensures forall k :: 0 <= k < |g| ==> |g[k]| > 0 && Inicial(g[k]) == c
    ensures multiset(g) <= multiset(nombres)
    decreases |nombres|
  {
    if nombres == [] then []
    else
      var ult := nombres[|nombres| - 1];
      assert nombres == nombres[..|nombres| - 1] + [ult];
      Grupo(nombres[..|nombres| - 1], c) + (if Inicial(ult) == c then [ult] else [])
  }

  /** The initials of all names, in input order. */
  function Iniciales(nombres: seq<string>): (r: seq<char>)
    requires NoVacios(nombres)
    ensures |r| == |nombres|
    ensures forall i :: 0 <= i < |nombres| ==> r[i] == Inicial(nombres[i])
    decreases |nombres|
  {
    if nombres == [] then []
    else Iniciales(nombres[..|nombres| - 1]) + [Inicial(nombres[|nombres| - 1])]
  }

  /** The contents of `agruparPorInicial`'s result. */
  ghost predicate EsAgrupacion(grupos: map<char, seq<string>>, nombres: seq<string>)
    requires NoVacios(nombres)
  {
    && (forall c :: c in grupos <==> c in Iniciales(nombres))
    && (forall c :: c in grupos ==> grupos[c] == Grupo(nombres, c))
  }

  /** `grupos[inicial] = append(grupos[inicial], nombre)`: a missing key reads as the nil slice. */
  function Anexar(grupos: map<char, seq<string>>, nombre: string): map<char, seq<string>>
    requires |nombre| > 0
  {
    var c := Inicial(nombre);
    grupos[c := (if c in grupos then grupos[c] else []) + [nombre]]
  }

  /** Appending a name extends only the group of its own initial. */
  lemma GrupoAnexado(nombres: seq<string>, nombre: string, c: char)
    requires NoVacios(nombres) && |nombre| > 0
    ensures NoVacios(nombres + [nombre])
    ensures Grupo(nombres + [nombre], c) == Grupo(nombres, c) + (if Inicial(nombre) == c then [nombre] else [])
    ensures Iniciales(nombres + [nombre]) == Iniciales(nombres) + [Inicial(nombre)]
  {
    var ns := nombres + [nombre];
    assert ns[..|ns| - 1] == nombres;
  }

  /** No name has an initial that does not occur among the initials. */
  lemma GrupoVacio(nombres: seq<string>, c: char)
    requires NoVacios(nombres) && c !in Iniciales(nombres)
    ensures Grupo(nombres, c) == []
  {
    GrupoTamano(nombres, c);
    assert multiset(Iniciales(nombres))[c] == 0;
  }

  /** One more name goes at the end of the group of its initial, and only there. */
  lemma AgrupacionAgregar(grupos: map<char, seq<string>>, nombres: seq<string>, nombre: string)
    requires NoVacios(nombres) && |nombre| > 0
    requires EsAgrupacion(grupos, nombres)
    ensures NoVacios(nombres + [nombre])
    ensures EsAgrupacion(Anexar(grupos, nombre), nombres + [nombre])
  {
    var ns := nombres + [nombre];
    var x := Inicial(nombre);
    var g2 := Anexar(grupos, nombre);
    GrupoAnexado(nombres, nombre, x);
    forall c ensures c in g2 <==> c in Iniciales(ns) {
      assert c in Iniciales(ns) <==> c in Iniciales(nombres) || c == x;
    }
    forall c | c in g2 ensures g2[c] == Grupo(ns, c) {
      GrupoAnexado(nombres, nombre, c);
      if c == x && x !in grupos {
        GrupoVacio(nombres, c);
      }
    }
  }

  /** The loop step of `agruparPorInicial`, stated over prefixes of the input. */
  lemma AgrupacionPaso(grupos: map<char, seq<string>>, nombres: seq<string>, i: nat)
    requires NoVacios(nombres) && i < |nombres|
    requires EsAgrupacion(grupos, nombres[..i])
    ensures EsAgrupacion(Anexar(grupos, nombres[i]), nombres[..i + 1])
  {
    assert nombres[..i + 1] == nombres[..i] + [nombres[i]];
    AgrupacionAgregar(grupos, nombres[..i], nombres[i]);
  }

  /** `agruparPorInicial`; Go panics on an empty name, which has no `nombre[0]`. */
  method AgruparPorInicial(nombres: seq<string>) returns (grupos: map<char, seq<string>>)
    requires NoVacios(nombres)
    ensures EsAgrupacion(grupos, nombres)
  {
    grupos := map[];
    for i := 0 to |nombres|
      invariant EsAgrupacion(grupos, nombres[..i])
    {
      AgrupacionPaso(grupos, nombres, i);
      grupos := Anexar(grupos, nombres[i]);
    }
    assert nombres[..|nombres|] == nombres;
  }

  /** A group has as many names as there are names with that initial. */
  lemma {:induction false} GrupoTamano(nombres: seq<string>, c: char)
    requires NoVacios(nombres)
    ensures |Grupo(nombres, c)| == multiset(Iniciales(nombres))[c]
    decreases |nombres|
  {
    if nombres != [] {
      var pre := nombres[..|nombres| - 1];
      GrupoTamano(pre, c);
      assert Iniciales(nombres) == Iniciales(pre) + [Inicial(nombres[|nombres| - 1])];
    }
  }

  /** Every name lands in exactly one group, so the group sizes add up to the number of names. */
  lemma AgrupacionSuma(grupos: map<char, seq<string>>, nombres: seq<string>)
    requires NoVacios(nombres)
    requires EsAgrupacion(grupos, nombres)
    ensures SumaValores(map c | c in grupos :: |grupos[c]|) == |nombres|
  {
    var tamanos := map c | c in grupos :: |grupos[c]|;
    var ms := multiset(Iniciales(nombres));
    forall c ensures c in tamanos <==> ms[c] > 0 {
      GrupoTamano(nombres, c);
    }
    forall c | c in tamanos ensures tamanos[c] == ms[c] {
      GrupoTamano(nombres, c);
    }
    SumaMultiset(tamanos, ms);
  }

  /** `productoMasCaro`; prices are compared, never computed with. */
  method ProductoMasCaro(precios: map<string, real>) returns (maxProducto: string, maxPrecio: real)
    ensures |precios| == 0 ==> maxProducto == "" && maxPrecio == 0.0
    ensures |precios| > 0 ==> maxProducto in precios && precios[maxProducto] == maxPrecio
    ensures forall p :: p in precios ==> precios[p] <= maxPrecio
  {
    maxProducto, maxPrecio := "", 0.0;
    var primera := true;
    var pendientes := precios.Keys;
    while pendientes != {}
      invariant pendientes <= precios.Keys
      invariant primera <==> pendientes == precios.Keys
      invariant primera ==> maxProducto == "" && maxPrecio == 0.0
      invariant !primera ==> maxProducto in precios && precios[maxProducto] == maxPrecio
      invariant forall p :: p in precios && p !in pendientes ==> precios[p] <= maxPrecio
      decreases pendientes
    {
      var producto :| producto in pendientes;
      var precio := precios[producto];
      if primera || precio > maxPrecio {
        maxProducto := producto;
        maxPrecio := precio;
        primera := false;
      }
      pendientes := pendientes - {producto};
    }
    assert |precios| == |precios.Keys|;
  }
}
