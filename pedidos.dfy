/**
 * The sequential heart of the order-processing example: the inventory
 * processor that reserves stock in a map, the fixed chain of processors an
 * order runs through (stopping at the first error and setting the order's
 * state), the statistics over the results, and the deterministic part of
 * generating orders.  Random draws (payment outcome, client, product,
 * quantity, price) arrive as parameters.
 */
module Pedidos {
  import opened Wrappers
  import opened GoText

  /** `EstadoPedido`, an `iota` enumeration. */
  datatype EstadoPedido = Pendiente | Procesando | Completado | Fallido {

    /** The integer the constant stands for. */
    function Valor(): nat
    {
      match this
      case Pendiente => 0
      case Procesando => 1
      case Completado => 2
      case Fallido => 3
    }

    /** `String()`: the name at index `Valor()` of the array of names. */
    function String(): string
    {
      ["Pendiente", "Procesando", "Completado", "Fallido"][Valor()]
    }
  }

  /** The constant with a given integer value, if any. */
  function EstadoDesde(n: int): (r: Option<EstadoPedido>)
    ensures r.Some? <==> 0 <= n < 4
    ensures r.Some? ==> r.value.Valor() == n
  {
    if n == 0 then Some(Pendiente)
    else if n == 1 then Some(Procesando)
    else if n == 2 then Some(Completado)
    else if n == 3 then Some(Fallido)
    else None
  }

  /** The four states have four distinct values and four distinct names. */
  lemma EstadoDistinto(a: EstadoPedido, b: EstadoPedido)
    ensures EstadoDesde(a.Valor()) == Some(a)
    ensures a.Valor() == b.Valor() ==> a == b
    ensures a.String() == b.String() ==> a == b
  {
    match a
    case Pendiente =>
    case Procesando =>
    case Completado =>
      assert "Completado"[0] != "Pendiente"[0] && "Completado"[0] != "Procesando"[0];
      assert "Completado"[0] != "Fallido"[0];
    case Fallido =>
  }

  datatype Pedido = Pedido(
    id: int,
    cliente: string,
    producto: string,
    cantidad: int,
    estado: EstadoPedido,
    precio: real)

  datatype Resultado = Resultado(pedido: Pedido, exito: bool, mensaje: string)

  /** Stock of a product as `p.Stock[producto]` reads it: 0 when the key is missing. */
  function Disponible(stock: map<string, int>, producto: string): int
  {
    if producto in stock then stock[producto] else 0
  }

  function MsgStockInsuficiente(producto: string, disponible: int, solicitado: int): string
  {
    "stock insuficiente para " + producto + " (disponible: " + Itoa(disponible)
      + ", solicitado: " + Itoa(solicitado) + ")"
  }

  function MsgPagoRechazado(id: int): string
  {
    "pago rechazado para pedido #" + Itoa(id)
  }

  const MsgExito: string := "Pedido procesado exitosamente"

  /** What the inventory processor does to the stock map and what error it returns. */
  function Reservar(stock: map<string, int>, pedido: Pedido): (r: (Option<string>, map<string, int>))
    ensures Disponible(stock, pedido.producto) < pedido.cantidad ==>
      r == (Some(MsgStockInsuficiente(pedido.producto, Disponible(stock, pedido.producto), pedido.cantidad)), stock)
    ensures Disponible(stock, pedido.producto) >= pedido.cantidad ==>
      && r.0.None?
      && r.1.Keys == stock.Keys + {pedido.producto}
      && Disponible(r.1, pedido.producto) == Disponible(stock, pedido.producto) - pedido.cantidad
      && forall q :: q != pedido.producto ==> Disponible(r.1, q) == Disponible(stock, q)
  {
    var disponible := Disponible(stock, pedido.producto);
    if disponible < pedido.cantidad then
      (Some(MsgStockInsuficiente(pedido.producto, disponible, pedido.cantidad)), stock)
    else
      (None, stock[pedido.producto := disponible - pedido.cantidad])
  }

  /**
   * Stock that starts non-negative stays non-negative under an order for a
   * non-negative quantity (the program only builds orders of 1 to 3 units).
   * The subtraction then stays between 0 and the old stock, so Go's 64-bit
   * `-=` cannot wrap either.
   */
  lemma ReservarNoNegativo(stock: map<string, int>, pedido: Pedido)
    requires forall q :: q in stock ==> stock[q] >= 0
    requires pedido.cantidad >= 0
    ensures forall q :: q in Reservar(stock, pedido).1 ==> Reservar(stock, pedido).1[q] >= 0
  {
    var r := Reservar(stock, pedido).1;
    forall q | q in r ensures r[q] >= 0 {
      assert r[q] == Disponible(r, q);
      if q != pedido.producto { assert Disponible(r, q) == Disponible(stock, q); }
    }
  }

  /** A product missing from the map has stock 0, so any order for at least one unit of it fails. */
  lemma ReservarProductoAusente(stock: map<string, int>, pedido: Pedido)
    requires pedido.producto !in stock && pedido.cantidad >= 1
    ensures Reservar(stock, pedido).0.Some? && Reservar(stock, pedido).1 == stock
  {
  }

  /** `ProcesadorInventario`: the stock map it guards. */
  class ProcesadorInventario {
    var stock: map<string, int>

    constructor (inicial: map<string, int>)
      ensures stock == inicial
    {
      stock := inicial;
    }

    method Procesar(pedido: Pedido) returns (err: Option<string>)
      modifies this
      ensures (err, stock) == Reservar(old(stock), pedido)
    {
      var disponible := if pedido.producto in stock then stock[pedido.producto] else 0;
      if disponible < pedido.cantidad {
        return Some(MsgStockInsuficiente(pedido.producto, disponible, pedido.cantidad));
      }
      stock := stock[pedido.producto := disponible - pedido.cantidad];
      return None;
    }
  }

  /** The three processor kinds of the example. */
  datatype Procesador = Inventario | Pago | Envio

  /**
   * One processor on one order.  `pagoAprobado` is the payment processor's
   * random draw for this order; shipping never fails.
   */
  function Paso(p: Procesador, stock: map<string, int>, pedido: Pedido, pagoAprobado: bool)
    : (Option<string>, map<string, int>)
  {
    match p
    case Inventario => Reservar(stock, pedido)
    case Pago => (if pagoAprobado then None else Some(MsgPagoRechazado(pedido.id)), stock)
    case Envio => (None, stock)
  }

  /** The processors in list order, stopping at the first that returns an error. */
  function Cadena(ps: seq<Procesador>, stock: map<string, int>, pedido: Pedido, pagoAprobado: bool)
    : (Option<string>, map<string, int>)
    decreases |ps|
  {
    if ps == [] then (None, stock)
    else
      var (err, s) := Paso(ps[0], stock, pedido, pagoAprobado);
      if err.Some? then (err, s) else Cadena(ps[1..], s, pedido, pagoAprobado)
  }

  /**
   * Running `a + b` is running `a` and, only if all of `a` succeeded,
   * running `b` on the stock `a` left: nothing after a failure runs.
   */
  lemma {:induction false} CadenaConcatenada(
    a: seq<Procesador>, b: seq<Procesador>, stock: map<string, int>, pedido: Pedido, pagoAprobado: bool)
    ensures Cadena(a + b, stock, pedido, pagoAprobado) ==
      var (err, s) := Cadena(a, stock, pedido, pagoAprobado);
      if err.Some? then (err, s) else Cadena(b, s, pedido, pagoAprobado)
    decreases |a|
  {
    if a == [] {
      assert a + b == b;
    } else {
      assert (a + b)[0] == a[0] && (a + b)[1..] == a[1..] + b;
      var (err, s) := Paso(a[0], stock, pedido, pagoAprobado);
      if err.None? {
        CadenaConcatenada(a[1..], b, s, pedido, pagoAprobado);
      }
    }
  }

  /** The processor list `NewSistemaPedidos` builds: inventory, then payment, then shipping. */
  const ProcesadoresDelSistema: seq<Procesador> := [Inventario, Pago, Envio]

  /**
   * The fixed chain on one order: it fails on missing stock (stock
   * untouched) or on a rejected payment; in the latter case the stock has
   * already been reserved and is not given back.
   */
  lemma CadenaDelSistema(stock: map<string, int>, pedido: Pedido, pagoAprobado: bool)
    ensures var (err, s) := Cadena(ProcesadoresDelSistema, stock, pedido, pagoAprobado);
      var hayStock := Disponible(stock, pedido.producto) >= pedido.cantidad;
      && (err.None? <==> hayStock && pagoAprobado)
      && (!hayStock ==> s == stock && err == Reservar(stock, pedido).0)
      && (hayStock ==> s == Reservar(stock, pedido).1)
      && (hayStock && !pagoAprobado ==> err == Some(MsgPagoRechazado(pedido.id)))
  {
    var ps := ProcesadoresDelSistema;
    assert ps[1..] == [Pago, Envio] && ps[1..][1..] == [Envio] && ps[1..][1..][1..] == [];
  }

  /** The order and result one worker produces once the chain has run. */
  function Cierre(pedido: Pedido, err: Option<string>): (r: (Pedido, Resultado))
    ensures r.1.pedido == r.0 && r.0 == pedido.(estado := r.0.estado)
    ensures r.1.exito <==> err.None?
    ensures r.0.estado == (if err.None? then Completado else Fallido)
    ensures r.1.mensaje == if err.None? then MsgExito else err.value
  {
    match err
    case Some(m) => var p := pedido.(estado := Fallido); (p, Resultado(p, false, m))
    case None => var p := pedido.(estado := Completado); (p, Resultado(p, true, MsgExito))
  }

  /** Every stock entry is non-negative. */
  predicate StockNoNegativo(stock: map<string, int>)
  {
    forall q :: q in stock ==> stock[q] >= 0
  }

  /** A chain of processors keeps stock non-negative when the order asks for a non-negative quantity. */
  lemma {:induction false} CadenaNoNegativa(
    ps: seq<Procesador>, stock: map<string, int>, pedido: Pedido, pagoAprobado: bool)
    requires StockNoNegativo(stock)
    requires pedido.cantidad >= 0
    ensures StockNoNegativo(Cadena(ps, stock, pedido, pagoAprobado).1)
    decreases |ps|
  {
    if ps != [] {
      var paso := Paso(ps[0], stock, pedido, pagoAprobado);
      if ps[0] == Inventario { ReservarNoNegativo(stock, pedido); }
      assert StockNoNegativo(paso.1);
      if paso.0.None? {
        CadenaNoNegativa(ps[1..], paso.1, pedido, pagoAprobado);
        assert Cadena(ps, stock, pedido, pagoAprobado) == Cadena(ps[1..], paso.1, pedido, pagoAprobado);
      } else {
        assert Cadena(ps, stock, pedido, pagoAprobado) == paso;
      }
    }
  }

  /**
   * One worker over a sequence of orders, one at a time: each order is
   * marked `Procesando`, runs the chain on the stock the earlier orders
   * left, and is closed by `Cierre`.  The final stock and the results, in
   * order.
   */
  function Corrida(ps: seq<Procesador>, stock: map<string, int>, pedidos: seq<Pedido>, pagos: seq<bool>)
    : (r: (map<string, int>, seq<Resultado>))
    requires |pagos| == |pedidos|
    ensures |r.1| == |pedidos|
    decreases |pedidos|
  {
    if pedidos == [] then (stock, [])
    else
      var n := |pedidos| - 1;
      var antes := Corrida(ps, stock, pedidos[..n], pagos[..n]);
      var cadena := Cadena(ps, antes.0, pedidos[n], pagos[n]);
      (cadena.1, antes.1 + [Cierre(pedidos[n].(estado := Procesando), cadena.0).1])
  }

  /**
   * Result `k` of a run is `Cierre` of order `k`'s chain, run on the stock
   * left by orders `0..k-1`.
   */
  lemma {:induction false} CorridaResultado(
    ps: seq<Procesador>, stock: map<string, int>, pedidos: seq<Pedido>, pagos: seq<bool>, k: nat)
    requires |pagos| == |pedidos| && k < |pedidos|
    ensures Corrida(ps, stock, pedidos, pagos).1[k] ==
      var antes := Corrida(ps, stock, pedidos[..k], pagos[..k]).0;
      Cierre(pedidos[k].(estado := Procesando), Cadena(ps, antes, pedidos[k], pagos[k]).0).1
    decreases |pedidos|
  {
    var n := |pedidos| - 1;
    if k < n {
      CorridaResultado(ps, stock, pedidos[..n], pagos[..n], k);
      assert pedidos[..n][..k] == pedidos[..k] && pagos[..n][..k] == pagos[..k];
    } else {
      assert pedidos[..k] == pedidos[..n] && pagos[..k] == pagos[..n];
    }
  }

  /**
   * A run over orders of non-negative quantities keeps stock non-negative,
   * so no order ever sees a negative `Stock` entry.
   */
  lemma {:induction false} CorridaNoNegativa(
    ps: seq<Procesador>, stock: map<string, int>, pedidos: seq<Pedido>, pagos: seq<bool>)
    requires |pagos| == |pedidos|
    requires StockNoNegativo(stock)
    requires forall i :: 0 <= i < |pedidos| ==> pedidos[i].cantidad >= 0
    ensures StockNoNegativo(Corrida(ps, stock, pedidos, pagos).0)
    decreases |pedidos|
  {
    if pedidos != [] {
      var n := |pedidos| - 1;
      CorridaNoNegativa(ps, stock, pedidos[..n], pagos[..n]);
      var s0 := Corrida(ps, stock, pedidos[..n], pagos[..n]).0;
      CadenaNoNegativa(ps, s0, pedidos[n], pagos[n]);
    }
  }

  /** `SistemaPedidos` without its channels: the processor list and the inventory processor in it. */
  class SistemaPedidos {
    var procesadores: seq<Procesador>
    var inventario: ProcesadorInventario
    var trabajadores: int

    /** `NewSistemaPedidos`: the initial stock and the three processors, in order. */
    constructor (trabajadores: int)
      ensures procesadores == ProcesadoresDelSistema
      ensures fresh(inventario)
      ensures inventario.stock ==
        map["Laptop" := 10, "Mouse" := 50, "Teclado" := 30, "Monitor" := 15, "Auricular" := 25]
      ensures this.trabajadores == trabajadores
    {
      procesadores := [Inventario, Pago, Envio];
      inventario := new ProcesadorInventario(
        map["Laptop" := 10, "Mouse" := 50, "Teclado" := 30, "Monitor" := 15, "Auricular" := 25]);
      this.trabajadores := trabajadores;
    }

    /** One processor of the list on the order, with the inventory held by this system. */
    method Ejecutar(p: Procesador, pedido: Pedido, pagoAprobado: bool) returns (err: Option<string>)
      modifies inventario
      ensures (err, inventario.stock) == Paso(p, old(inventario.stock), pedido, pagoAprobado)
    {
      match p
      case Inventario => err := inventario.Procesar(pedido);
      case Pago => err := if pagoAprobado then None else Some(MsgPagoRechazado(pedido.id));
      case Envio => err := None;
    }

    /**
     * The body of the worker loop for one order: mark it `Procesando`, run
     * the processors in order until one fails, then record the final state.
     */
    method ProcesarPedido(pedido: Pedido, pagoAprobado: bool) returns (procesado: Pedido, res: Resultado)
      modifies inventario
      ensures var (err, s) := Cadena(procesadores, old(inventario.stock), pedido, pagoAprobado);
        && inventario.stock == s
        && (procesado, res) == Cierre(pedido.(estado := Procesando), err)
    {
      var actual := pedido.(estado := Procesando);
      var exito := true;
      var mensaje := "";
      var i := 0;
      while i < |procesadores|
        invariant 0 <= i <= |procesadores|
        invariant Cadena(procesadores[..i], old(inventario.stock), pedido, pagoAprobado) == (None, inventario.stock)
        invariant exito && actual == pedido.(estado := Procesando)
      {
        var err := Ejecutar(procesadores[i], actual, pagoAprobado);
        CadenaConcatenada(procesadores[..i], [procesadores[i]], old(inventario.stock), pedido, pagoAprobado);
        assert procesadores[..i + 1] == procesadores[..i] + [procesadores[i]];
        if err.Some? {
          exito := false;
          mensaje := err.value;
          actual := actual.(estado := Fallido);
          CadenaConcatenada(procesadores[..i + 1], procesadores[i + 1..], old(inventario.stock), pedido, pagoAprobado);
          assert procesadores[..i + 1] + procesadores[i + 1..] == procesadores;
          break;
        }
        i := i + 1;
      }
      if exito {
        assert procesadores[..i] == procesadores;
        actual := actual.(estado := Completado);
        mensaje := MsgExito;
      }
      procesado := actual;
      res := Resultado(actual, exito, mensaje);
    }

    /**
     * One worker's `for pedido := range s.pedidos` loop, run over the orders
     * in sequence: exactly one result per order, in order, each the chain's
     * outcome on the stock the earlier orders left.
     */
    method Trabajador(pedidos: seq<Pedido>, pagos: seq<bool>) returns (resultados: seq<Resultado>)
      requires |pagos| == |pedidos|
      modifies inventario
      ensures (inventario.stock, resultados) == Corrida(procesadores, old(inventario.stock), pedidos, pagos)
      ensures forall i :: 0 <= i < |pedidos| ==>
        var antes := Corrida(procesadores, old(inventario.stock), pedidos[..i], pagos[..i]).0;
        resultados[i] == Cierre(pedidos[i].(estado := Procesando), Cadena(procesadores, antes, pedidos[i], pagos[i]).0).1
      ensures |resultados| == |pedidos|
      ensures forall i :: 0 <= i < |pedidos| ==>
        && resultados[i].pedido == pedidos[i].(estado := resultados[i].pedido.estado)
        && (resultados[i].exito <==> resultados[i].pedido.estado == Completado)
        && (!resultados[i].exito <==> resultados[i].pedido.estado == Fallido)
    {
      resultados := [];
      var i := 0;
      while i < |pedidos|
        invariant 0 <= i <= |pedidos|
        invariant (inventario.stock, resultados) == Corrida(procesadores, old(inventario.stock), pedidos[..i], pagos[..i])
        invariant forall k :: 0 <= k < i ==>
          && resultados[k].pedido == pedidos[k].(estado := resultados[k].pedido.estado)
          && (resultados[k].exito <==> resultados[k].pedido.estado == Completado)
          && (!resultados[k].exito <==> resultados[k].pedido.estado == Fallido)
      {
        assert pedidos[..i + 1][..i] == pedidos[..i] && pagos[..i + 1][..i] == pagos[..i];
        assert pedidos[..i + 1][i] == pedidos[i] && pagos[..i + 1][i] == pagos[i];
        var _, res := ProcesarPedido(pedidos[i], pagos[i]);
        resultados := resultados + [res];
        i := i + 1;
      }
      assert pedidos[..i] == pedidos && pagos[..i] == pagos;
      forall k | 0 <= k < |pedidos|
        ensures resultados[k] == Cierre(pedidos[k].(estado := Procesando),
          Cadena(procesadores, Corrida(procesadores, old(inventario.stock), pedidos[..k], pagos[..k]).0, pedidos[k], pagos[k]).0).1
      {
        CorridaResultado(procesadores, old(inventario.stock), pedidos, pagos, k);
      }
    }
  }

  /** Number of successful results. */
  function Exitos(rs: seq<Resultado>): (n: nat)
    ensures n <= |rs|
    decreases |rs|
  {
    if rs == [] then 0 else Exitos(rs[..|rs| - 1]) + (if rs[|rs| - 1].exito then 1 else 0)
  }

  /** The counting loop of `MostrarEstadisticas`. */
  method Estadisticas(resultados: seq<Resultado>) returns (exitosos: nat, fallidos: nat)
    ensures exitosos == Exitos(resultados)
    ensures exitosos + fallidos == |resultados|
  {
    exitosos, fallidos := 0, 0;
    var i := 0;
    while i < |resultados|
      invariant 0 <= i <= |resultados|
      invariant exitosos == Exitos(resultados[..i])
      invariant exitosos + fallidos == i
    {
      assert resultados[..i + 1][..i] == resultados[..i];
      if resultados[i].exito {
        exitosos := exitosos + 1;
      } else {
        fallidos := fallidos + 1;
      }
      i := i + 1;
    }
    assert resultados[..i] == resultados;
  }

  /** The random draws for one generated order: `rand.Intn` results. */
  datatype Sorteo = Sorteo(cliente: nat, producto: nat, cantidad: nat, precio: nat)

  const ProductosCatalogo: seq<string> := ["Laptop", "Mouse", "Teclado", "Monitor", "Auricular"]
  const NombresClientes: seq<string> := ["Ana", "Carlos", "Luis", "María", "Pedro", "Laura"]

  /** Each draw lies in the range `rand.Intn` gives it. */
  predicate SorteoValido(s: Sorteo)
  {
    s.cliente < |NombresClientes| && s.producto < |ProductosCatalogo| && s.cantidad < 3 && s.precio < 1000
  }

  /** `GenerarPedidos`: order `i` (from 0) gets ID `i + 1`, state `Pendiente` and 1 to 3 units. */
  method GenerarPedidos(cantidad: nat, sorteos: seq<Sorteo>) returns (pedidos: seq<Pedido>)
    requires |sorteos| == cantidad
    requires forall i :: 0 <= i < cantidad ==> SorteoValido(sorteos[i])
    ensures |pedidos| == cantidad
    ensures forall i :: 0 <= i < cantidad ==>
      && SorteoValido(sorteos[i])
      && pedidos[i].id == i + 1
      && pedidos[i].estado == Pendiente
      && 1 <= pedidos[i].cantidad <= 3
      && pedidos[i].cantidad == sorteos[i].cantidad + 1
      && pedidos[i].cliente == NombresClientes[sorteos[i].cliente]
      && pedidos[i].producto == ProductosCatalogo[sorteos[i].producto]
      && pedidos[i].precio == (sorteos[i].precio + 100) as real
  {
    var a := new Pedido[cantidad];
    for i := 0 to cantidad
      invariant forall k :: 0 <= k < i ==>
        a[k] == Pedido(k + 1, NombresClientes[sorteos[k].cliente], ProductosCatalogo[sorteos[k].producto],
                       sorteos[k].cantidad + 1, Pendiente, (sorteos[k].precio + 100) as real)
    {
      a[i] := Pedido(i + 1, NombresClientes[sorteos[i].cliente], ProductosCatalogo[sorteos[i].producto],
                     sorteos[i].cantidad + 1, Pendiente, (sorteos[i].precio + 100) as real);
    }
    pedidos := a[..];
  }
}
