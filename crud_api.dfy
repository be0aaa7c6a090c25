/**
 * The HTTP handlers of crud-api: each one reads the package-level table
 * `models.Productos` / `models.SiguienteID`, answers with a status code and
 * a JSON body, and may change the table.  Path-parameter parsing
 * (`strconv.Atoi`) arrives as an Option and JSON binding with its
 * validation tags as a `Bind` outcome.  The handlers are stated as pure
 * functions from the table and the parsed inputs to the response and the
 * new table; the class `Modelos` runs the handlers' own loops over the
 * mutable table and is proved to agree with those functions.
 */
module CrudApi {
  import opened Wrappers
  import opened GoSlices
  import opened ProductoTabla

  const StatusOK: int := 200
  const StatusCreated: int := 201
  const StatusBadRequest: int := 400
  const StatusNotFound: int := 404

  const MsgIdInvalido: string := "ID inválido"
  const MsgNoEncontrado: string := "Producto no encontrado"
  const MsgEliminado: string := "Producto eliminado exitosamente"

  /** `models.Productos` and `models.SiguienteID`. */
  datatype Estado = Estado(productos: seq<Producto>, siguienteID: int)

  /** The JSON body the handler sends. */
  datatype Cuerpo =
    | Listado(productos: seq<Producto>, total: int)
    | Uno(producto: Producto)
    | Error(error: string)
    | Mensaje(mensaje: string)

  datatype Respuesta = Respuesta(status: int, cuerpo: Cuerpo)

  /** Outcome of `c.ShouldBindJSON`: the bound product, or the binder's error text. */
  datatype Bind = Ligado(producto: Producto) | FalloBind(error: string)

  /** The state the API starts in. */
  const Inicial: Estado := Estado([], 1)

  ghost predicate Valida(e: Estado)
  {
    TablaValida(e.productos, e.siguienteID)
  }

  /** GET /productos */
  function Listar(e: Estado): (r: Respuesta)
    ensures r.status == StatusOK && r.cuerpo.Listado?
    ensures r.cuerpo.productos == e.productos && r.cuerpo.total == |e.productos|
  {
    Respuesta(StatusOK, Listado(e.productos, |e.productos|))
  }

  /** GET /productos/:id */
  function Obtener(e: Estado, id: Option<int>): (r: Respuesta)
    ensures id.None? ==> r == Respuesta(StatusBadRequest, Error(MsgIdInvalido))
    ensures id.Some? ==> (r.status == StatusOK <==> PrimerIndice(e.productos, id.value).Some?)
    ensures id.Some? && r.status == StatusOK ==>
      r.cuerpo.Uno? && r.cuerpo.producto.id == id.value && r.cuerpo.producto in e.productos
    ensures id.Some? && r.status != StatusOK ==> r == Respuesta(StatusNotFound, Error(MsgNoEncontrado))
  {
    match id
    case None => Respuesta(StatusBadRequest, Error(MsgIdInvalido))
    case Some(n) =>
      match PrimerIndice(e.productos, n)
      case Some(i) => Respuesta(StatusOK, Uno(e.productos[i]))
      case None => Respuesta(StatusNotFound, Error(MsgNoEncontrado))
  }

  /** POST /productos */
  function Crear(e: Estado, body: Bind): (r: (Respuesta, Estado))
    ensures body.FalloBind? ==> r == (Respuesta(StatusBadRequest, Error(body.error)), e)
    ensures body.Ligado? ==>
      var p := body.producto.(id := e.siguienteID);
      && r.0 == Respuesta(StatusCreated, Uno(p))
      && r.1.productos == e.productos + [p]
      && r.1.siguienteID == e.siguienteID + 1
  {
    match body
    case FalloBind(msg) => (Respuesta(StatusBadRequest, Error(msg)), e)
    case Ligado(p) =>
      var nuevo := p.(id := e.siguienteID);
      (Respuesta(StatusCreated, Uno(nuevo)), Estado(e.productos + [nuevo], e.siguienteID + 1))
  }

  /** PUT /productos/:id — the id is checked first, then the body, and only then the table. */
  function Actualizar(e: Estado, id: Option<int>, body: Bind): (r: (Respuesta, Estado))
    ensures r.1.siguienteID == e.siguienteID
    ensures id.None? ==> r == (Respuesta(StatusBadRequest, Error(MsgIdInvalido)), e)
    ensures id.Some? && body.FalloBind? ==> r == (Respuesta(StatusBadRequest, Error(body.error)), e)
    ensures id.Some? && body.Ligado? && PrimerIndice(e.productos, id.value).None? ==>
      r == (Respuesta(StatusNotFound, Error(MsgNoEncontrado)), e)
    ensures id.Some? && body.Ligado? && PrimerIndice(e.productos, id.value).Some? ==>
      var i := PrimerIndice(e.productos, id.value).value;
      var p := body.producto.(id := id.value);
      && r.0 == Respuesta(StatusOK, Uno(p))
      && r.1.productos == e.productos[i := p]
  {
    match id
    case None => (Respuesta(StatusBadRequest, Error(MsgIdInvalido)), e)
    case Some(n) =>
      match body
      case FalloBind(msg) => (Respuesta(StatusBadRequest, Error(msg)), e)
      case Ligado(p) =>
        match PrimerIndice(e.productos, n)
        case None => (Respuesta(StatusNotFound, Error(MsgNoEncontrado)), e)
        case Some(i) =>
          var nuevo := p.(id := n);
          (Respuesta(StatusOK, Uno(nuevo)), e.(productos := e.productos[i := nuevo]))
  }

  /** DELETE /productos/:id */
  function Eliminar(e: Estado, id: Option<int>): (r: (Respuesta, Estado))
    ensures r.1.siguienteID == e.siguienteID
    ensures id.None? ==> r == (Respuesta(StatusBadRequest, Error(MsgIdInvalido)), e)
    ensures id.Some? && PrimerIndice(e.productos, id.value).None? ==>
      r == (Respuesta(StatusNotFound, Error(MsgNoEncontrado)), e)
    ensures id.Some? && PrimerIndice(e.productos, id.value).Some? ==>
      && r.0 == Respuesta(StatusOK, Mensaje(MsgEliminado))
      && r.1.productos == Quitar(e.productos, PrimerIndice(e.productos, id.value).value)
  {
    match id
    case None => (Respuesta(StatusBadRequest, Error(MsgIdInvalido)), e)
    case Some(n) =>
      match PrimerIndice(e.productos, n)
      case None => (Respuesta(StatusNotFound, Error(MsgNoEncontrado)), e)
      case Some(i) =>
        (Respuesta(StatusOK, Mensaje(MsgEliminado)), e.(productos := Quitar(e.productos, i)))
  }

  /** One request to the `/productos` routes, with its inputs already parsed. */
  datatype Peticion =
    | GetLista
    | GetUno(id: Option<int>)
    | Post(body: Bind)
    | Put(id: Option<int>, body: Bind)
    | Delete(id: Option<int>)

  /** The route table: which handler answers which request. */
  function Atender(e: Estado, p: Peticion): (Respuesta, Estado)
  {
    match p
    case GetLista => (Listar(e), e)
    case GetUno(id) => (Obtener(e, id), e)
    case Post(body) => Crear(e, body)
    case Put(id, body) => Actualizar(e, id, body)
    case Delete(id) => Eliminar(e, id)
  }

  /**
   * Every handler keeps the table valid; after a DELETE no product has the
   * id any more, and a created product is the one the new ID finds.
   */
  lemma AtenderValida(e: Estado, p: Peticion)
    requires Valida(e)
    ensures Valida(Atender(e, p).1)
    ensures p.Delete? && p.id.Some? ==> PrimerIndice(Atender(e, p).1.productos, p.id.value).None?
    ensures p.Post? && p.body.Ligado? ==>
      PrimerIndice(Atender(e, p).1.productos, e.siguienteID) == Some(|e.productos|)
  {
    match p
    case GetLista =>
    case GetUno(_) =>
    case Post(body) =>
      if body.Ligado? {
        AgregarValida(e.productos, e.siguienteID, body.producto.(id := e.siguienteID));
      }
    case Put(id, body) =>
      if id.Some? && body.Ligado? && PrimerIndice(e.productos, id.value).Some? {
        var i := PrimerIndice(e.productos, id.value).value;
        ReemplazarValida(e.productos, e.siguienteID, i, body.producto.(id := id.value));
      }
    case Delete(id) =>
      if id.Some? && PrimerIndice(e.productos, id.value).Some? {
        QuitarValida(e.productos, e.siguienteID, PrimerIndice(e.productos, id.value).value);
      }
  }

  /** The table after serving the requests one after another. */
  function AtenderTodas(e: Estado, ps: seq<Peticion>): Estado
    decreases |ps|
  {
    if ps == [] then e else AtenderTodas(Atender(e, ps[0]).1, ps[1..])
  }

  /** Number of POST requests with a body that binds. */
  function Creaciones(ps: seq<Peticion>): nat
    decreases |ps|
  {
    if ps == [] then 0
    else (if ps[0].Post? && ps[0].body.Ligado? then 1 else 0) + Creaciones(ps[1..])
  }

  /**
   * Over any run of requests the table stays valid (IDs unique and below
   * the counter) and the counter advances exactly once per successful
   * creation, so an ID is never handed out twice, even after a deletion.
   */
  lemma {:induction false} CorridaValida(e: Estado, ps: seq<Peticion>)
    requires Valida(e)
    ensures Valida(AtenderTodas(e, ps))
    ensures AtenderTodas(e, ps).siguienteID == e.siguienteID + Creaciones(ps)
    decreases |ps|
  {
    if ps != [] {
      var e' := Atender(e, ps[0]).1;
      AtenderValida(e, ps[0]);
      assert e'.siguienteID == e.siguienteID + (if ps[0].Post? && ps[0].body.Ligado? then 1 else 0);
      CorridaValida(e', ps[1..]);
    }
  }

  /** GET /productos and GET /productos/:id leave the table as it is. */
  lemma LecturasNoModifican(e: Estado, p: Peticion)
    requires p.GetLista? || p.GetUno?
    ensures Atender(e, p).1 == e
  {
  }

  /** A bad body on a PUT is reported as 400 even when no product has the id. */
  lemma ActualizarCuerpoAntesQueBusqueda(e: Estado, id: int, msg: string)
    requires PrimerIndice(e.productos, id).None?
    ensures Actualizar(e, Some(id), FalloBind(msg)).0.status == StatusBadRequest
    ensures Actualizar(e, Some(id), Ligado(Producto(0, "", 0.0))).0.status == StatusNotFound
  {
  }

  /** The package-level variables of crud-api/models, changed in place by the handlers' loops. */
  class Modelos {
    var productos: seq<Producto>
    var siguienteID: int

    function Actual(): Estado
      reads this
    {
      Estado(productos, siguienteID)
    }

    ghost predicate Valid()
      reads this
    {
      Valida(Actual())
    }

    constructor ()
      ensures Valid() && Actual() == Inicial
    {
      productos := [];
      siguienteID := 1;
    }

    method ListarProductos() returns (r: Respuesta)
      ensures r == Listar(Actual())
    {
      r := Respuesta(StatusOK, Listado(productos, |productos|));
    }

    method ObtenerProducto(id: Option<int>) returns (r: Respuesta)
      ensures r == Obtener(Actual(), id)
    {
      if id.None? {
        return Respuesta(StatusBadRequest, Error(MsgIdInvalido));
      }
      var n := id.value;
      var i := 0;
      while i < |productos|
        invariant 0 <= i <= |productos|
        invariant forall k :: 0 <= k < i ==> productos[k].id != n
      {
        if productos[i].id == n {
          return Respuesta(StatusOK, Uno(productos[i]));
        }
        i := i + 1;
      }
      return Respuesta(StatusNotFound, Error(MsgNoEncontrado));
    }

    method CrearProducto(body: Bind) returns (r: Respuesta)
      requires Valid()
      modifies this
      ensures Valid()
      ensures (r, Actual()) == Crear(old(Actual()), body)
    {
      if body.FalloBind? {
        return Respuesta(StatusBadRequest, Error(body.error));
      }
      var nuevo := body.producto;
      nuevo := nuevo.(id := siguienteID);
      siguienteID := siguienteID + 1;
      productos := productos + [nuevo];
      r := Respuesta(StatusCreated, Uno(nuevo));
    }

    method ActualizarProducto(id: Option<int>, body: Bind) returns (r: Respuesta)
      requires Valid()
      modifies this
      ensures Valid()
      ensures (r, Actual()) == Actualizar(old(Actual()), id, body)
    {
      if id.None? {
        return Respuesta(StatusBadRequest, Error(MsgIdInvalido));
      }
      var n := id.value;
      if body.FalloBind? {
        return Respuesta(StatusBadRequest, Error(body.error));
      }
      var actualizado := body.producto;
      var i := 0;
      while i < |productos|
        invariant 0 <= i <= |productos|
        invariant forall k :: 0 <= k < i ==> productos[k].id != n
        invariant productos == old(productos) && siguienteID == old(siguienteID)
      {
        if productos[i].id == n {
          actualizado := actualizado.(id := n);
          productos := productos[i := actualizado];
          return Respuesta(StatusOK, Uno(actualizado));
        }
        i := i + 1;
      }
      return Respuesta(StatusNotFound, Error(MsgNoEncontrado));
    }

    method EliminarProducto(id: Option<int>) returns (r: Respuesta)
      requires Valid()
      modifies this
      ensures Valid()
      ensures (r, Actual()) == Eliminar(old(Actual()), id)
    {
      if id.None? {
        return Respuesta(StatusBadRequest, Error(MsgIdInvalido));
      }
      var n := id.value;
      var i := 0;
      while i < |productos|
        invariant 0 <= i <= |productos|
        invariant forall k :: 0 <= k < i ==> productos[k].id != n
        invariant productos == old(productos) && siguienteID == old(siguienteID)
      {
        if productos[i].id == n {
          productos := Quitar(productos, i);
          return Respuesta(StatusOK, Mensaje(MsgEliminado));
        }
        i := i + 1;
      }
      return Respuesta(StatusNotFound, Error(MsgNoEncontrado));
    }
  }
}
