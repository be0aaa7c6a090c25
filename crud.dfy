/**
 * The console CRUD of crud/main.go: the package-level slice `productos` and
 * counter `siguienteID`, held here as the fields of one object, and the four
 * operations that the menu calls after it has parsed its input.
 */
module Crud {
  import opened Wrappers
  import opened GoSlices
  import opened ProductoTabla

  class Catalogo {
    var productos: seq<Producto>
    var siguienteID: int

    ghost predicate Valid()
      reads this
    {
      TablaValida(productos, siguienteID)
    }

    /** The program's initial state: no products, and `siguienteID` starts at 1. */
    constructor ()
      ensures Valid()
      ensures productos == [] && siguienteID == 1
    {
      productos := [];
      siguienteID := 1;
    }

    /** `crearProducto`: the new product takes the current counter as its ID and goes at the end. */
    method CrearProducto(nombre: string, precio: Precio) returns (id: int)
      requires Valid()
      modifies this
      ensures Valid()
      ensures id == old(siguienteID)
      ensures siguienteID == old(siguienteID) + 1
      ensures productos == old(productos) + [Producto(id, nombre, precio)]
      ensures PrimerIndice(productos, id) == Some(|old(productos)|)
    {
      var nuevo := Producto(siguienteID, nombre, precio);
      AgregarValida(productos, siguienteID, nuevo);
      productos := productos + [nuevo];
      siguienteID := siguienteID + 1;
      id := nuevo.id;
    }

    /** `buscarProducto`: the index that `&productos[i]` points at, or None for nil. */
    method BuscarProducto(id: int) returns (r: Option<nat>)
      ensures r == PrimerIndice(productos, id)
    {
      var i := 0;
      while i < |productos|
        invariant 0 <= i <= |productos|
        invariant forall k :: 0 <= k < i ==> productos[k].id != id
      {
        if productos[i].id == id {
          return Some(i);
        }
        i := i + 1;
      }
      return None;
    }

    /**
     * `actualizarProducto`: through the pointer found by the search it
     * overwrites `Nombre` and `Precio`; the ID and all other entries stay.
     */
    method ActualizarProducto(id: int, nombre: string, precio: Precio) returns (ok: bool)
      requires Valid()
      modifies this
      ensures Valid()
      ensures ok <==> PrimerIndice(old(productos), id).Some?
      ensures siguienteID == old(siguienteID)
      ensures !ok ==> productos == old(productos)
      ensures ok ==> var i := PrimerIndice(old(productos), id).value;
        productos == old(productos)[i := Producto(id, nombre, precio)]
    {
      var p := BuscarProducto(id);
      if p.None? {
        return false;
      }
      var i := p.value;
      ReemplazarValida(productos, siguienteID, i, productos[i].(nombre := nombre, precio := precio));
      productos := productos[i := productos[i].(nombre := nombre)];
      productos := productos[i := productos[i].(precio := precio)];
      return true;
    }

    /** `eliminarProducto`: splices out the first entry with the ID; the counter is not touched. */
    method EliminarProducto(id: int) returns (ok: bool)
      requires Valid()
      modifies this
      ensures Valid()
      ensures ok <==> PrimerIndice(old(productos), id).Some?
      ensures siguienteID == old(siguienteID)
      ensures !ok ==> productos == old(productos)
      ensures ok ==> productos == Quitar(old(productos), PrimerIndice(old(productos), id).value)
      ensures PrimerIndice(productos, id).None?
    {
      var i := 0;
      while i < |productos|
        invariant 0 <= i <= |productos|
        invariant forall k :: 0 <= k < i ==> productos[k].id != id
      {
        if productos[i].id == id {
          QuitarValida(productos, siguienteID, i);
          productos := Quitar(productos, i);
          return true;
        }
        i := i + 1;
      }
      return false;
    }
  }
}
