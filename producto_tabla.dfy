/**
 * The in-memory product table shared by the console CRUD and the HTTP API:
 * a slice of products searched linearly by ID, plus the next ID to hand out.
 */
module ProductoTabla {
  import opened Wrappers
  import opened GoSlices

  /** Prices are float64 values that the table only stores and returns. */
  type Precio = real

  datatype Producto = Producto(id: int, nombre: string, precio: Precio)

  /** Index of the first product whose ID is `id` (what the search loops stop at), or None. */
  function PrimerIndice(ps: seq<Producto>, id: int): (r: Option<nat>)
    ensures r.Some? ==> r.value < |ps| && ps[r.value].id == id
    ensures r.Some? ==> forall k :: 0 <= k < r.value ==> ps[k].id != id
    ensures r.None? <==> forall k :: 0 <= k < |ps| ==> ps[k].id != id
    decreases |ps|
  {
    if ps == [] then None
    else if ps[0].id == id then Some(0)
    else
      match PrimerIndice(ps[1..], id)
      case None => None
      case Some(j) => Some(j + 1)
  }

  /**
   * The table invariant: IDs strictly increase along the slice and all lie
   * below the next ID, which is at least the initial 1.
   */
  ghost predicate TablaValida(ps: seq<Producto>, siguienteID: int)
  {
    && siguienteID >= 1
    && (forall i, j :: 0 <= i < j < |ps| ==> ps[i].id < ps[j].id)
    && (forall i :: 0 <= i < |ps| ==> ps[i].id < siguienteID)
  }

  /** In a valid table no ID occurs twice, and no ID at or above the next ID occurs at all. */
  lemma IdsUnicos(ps: seq<Producto>, siguienteID: int)
    requires TablaValida(ps, siguienteID)
    ensures forall i, j :: 0 <= i < |ps| && 0 <= j < |ps| && i != j ==> ps[i].id != ps[j].id
    ensures forall id :: id >= siguienteID ==> PrimerIndice(ps, id).None?
  {
    forall i, j | 0 <= i < |ps| && 0 <= j < |ps| && i != j
      ensures ps[i].id != ps[j].id
    {
      if i < j { assert ps[i].id < ps[j].id; } else { assert ps[j].id < ps[i].id; }
    }
  }

  /** In a valid table the first match is the only match. */
  lemma PrimerIndiceUnico(ps: seq<Producto>, siguienteID: int, id: int, k: nat)
    requires TablaValida(ps, siguienteID)
    requires k < |ps| && ps[k].id == id
    ensures PrimerIndice(ps, id) == Some(k)
  {
    IdsUnicos(ps, siguienteID);
  }

  /** Appending a product that takes the next ID, then advancing the counter, keeps the table valid. */
  lemma AgregarValida(ps: seq<Producto>, siguienteID: int, p: Producto)
    requires TablaValida(ps, siguienteID)
    requires p.id == siguienteID
    ensures TablaValida(ps + [p], siguienteID + 1)
    ensures PrimerIndice(ps + [p], p.id) == Some(|ps|)
  {
    PrimerIndiceUnico(ps + [p], siguienteID + 1, p.id, |ps|);
  }

  /** Replacing a product by one with the same ID keeps the table valid. */
  lemma ReemplazarValida(ps: seq<Producto>, siguienteID: int, i: nat, p: Producto)
    requires TablaValida(ps, siguienteID)
    requires i < |ps| && p.id == ps[i].id
    ensures TablaValida(ps[i := p], siguienteID)
  {
  }

  /** Removing a product keeps the table valid; the counter is not lowered, so a deleted ID is never reissued. */
  lemma QuitarValida(ps: seq<Producto>, siguienteID: int, i: nat)
    requires TablaValida(ps, siguienteID)
    requires i < |ps|
    ensures TablaValida(Quitar(ps, i), siguienteID)
    ensures PrimerIndice(Quitar(ps, i), ps[i].id).None?
  {
    var r := Quitar(ps, i);
    forall a, b | 0 <= a < b < |r| ensures r[a].id < r[b].id {
      var a' := if a < i then a else a + 1;
      var b' := if b < i then b else b + 1;
      assert r[a] == ps[a'] && r[b] == ps[b'];
    }
    forall k | 0 <= k < |r| ensures r[k].id != ps[i].id {
      var k' := if k < i then k else k + 1;
      assert r[k] == ps[k'];
      IdsUnicos(ps, siguienteID);
    }
  }
}
