/** Stock accounting of the sale lifecycle: the per-line worker `procesarDetalleVenta`, the
    sequential run of it over a request's lines, and the loops that credit a sale's lines back.
    Everything here works on a copy of the product store, which the service commits only when
    the whole operation succeeds. */
module Existencias {
  import opened Comun
  import opened ProductoEntidad
  import opened DetalleVentaEntidad

  /** The product store: key to record. */
  type Inventario = map<ProductoId, ProductoDatos>

  /** A line as a request carries it: a product reference that may be null, and a quantity. */
  datatype LineaSolicitada = LineaSolicitada(productoId: Option<ProductoId>, cantidad: int)

  /** Total quantity of product `p` that a request asks for. */
  function CantidadPedida(ls: seq<LineaSolicitada>, p: ProductoId): int
  {
    if ls == [] then 0
    else CantidadPedida(ls[..|ls| - 1], p) + (if ls[|ls| - 1].productoId == Some(p) then ls[|ls| - 1].cantidad else 0)
  }

  /** Total quantity of product `p` held by a sale's lines. */
  function CantidadDe(ds: seq<Detalle>, p: ProductoId): int
  {
    if ds == [] then 0
    else CantidadDe(ds[..|ds| - 1], p) + (if ds[|ds| - 1].productoId == p then ds[|ds| - 1].cantidad else 0)
  }

  lemma {:induction false} CantidadDeNoNegativa(ds: seq<Detalle>, p: ProductoId)
    requires forall i :: 0 <= i < |ds| ==> ds[i].cantidad >= 0
    ensures CantidadDe(ds, p) >= 0
  {
    if ds != [] {
      CantidadDeNoNegativa(ds[..|ds| - 1], p);
    }
  }

  /** Quantities held by two runs of lines add up. */
  lemma {:induction false} CantidadDeConcat(a: seq<Detalle>, b: seq<Detalle>)
    ensures forall p :: CantidadDe(a + b, p) == CantidadDe(a, p) + CantidadDe(b, p)
  {
    if b != [] {
      assert (a + b)[..|a + b| - 1] == a + b[..|b| - 1];
      CantidadDeConcat(a, b[..|b| - 1]);
    } else {
      assert a + b == a;
    }
  }

  /** Every line names a product of the store. */
  predicate ProductosConocidos(inv: Inventario, ds: seq<Detalle>) {
    forall i :: 0 <= i < |ds| ==> ds[i].productoId in inv
  }

  /** `procesarDetalleVenta` for one line: resolve the product, check it is active and has
      `stock >= cantidad`, copy its current price onto the line and debit the stock. */
  function ProcesarDetalle(inv: Inventario, l: LineaSolicitada): (r: Result<(Inventario, Detalle), Error>)
    ensures l.productoId.None? ==> r == Failure(ProductoObligatorio)
    ensures l.productoId.Some? && l.productoId.value !in inv ==> r == Failure(ProductoNoEncontrado)
    ensures l.productoId.Some? && l.productoId.value in inv ==>
      var p := inv[l.productoId.value];
      && (!p.activo ==> r == Failure(ProductoInactivo))
      && (p.activo && p.stock < l.cantidad ==> r == Failure(StockInsuficiente(p.nombre)))
      && (p.activo && p.stock >= l.cantidad ==> r.Success?)
    ensures r.Success? ==>
      var pid, nuevo, d := l.productoId.value, r.value.0, r.value.1;
      && pid in inv
      && nuevo.Keys == inv.Keys
      && nuevo[pid].stock == inv[pid].stock - l.cantidad >= 0
      && nuevo[pid].MismaFichaQue(inv[pid])
      && (forall q :: q in inv && q != pid ==> nuevo[q] == inv[q])
      && d.productoId == pid && d.cantidad == l.cantidad
      && d.precioUnitario == inv[pid].precio
      && d.subtotal == Importe(inv[pid].precio, l.cantidad)
  {
    match l.productoId
    case None => Failure(ProductoObligatorio)
    case Some(pid) =>
      if pid !in inv then Failure(ProductoNoEncontrado)
      else
        var p := inv[pid];
        if !p.activo then Failure(ProductoInactivo)
        else if p.stock < l.cantidad then Failure(StockInsuficiente(p.nombre))
        else
          // setPrecioUnitario(producto.getPrecio()) on a line whose quantity is set
          var d := Detalle(pid, l.cantidad, p.precio, Importe(p.precio, l.cantidad));
          Success((inv[pid := p.Reducir(l.cantidad).value], d))
  }

  /** The request's lines run through `ProcesarDetalle` in request order, each against the
      stock the earlier ones left; the first failure ends the run. */
  function ProcesarDetalles(inv: Inventario, ls: seq<LineaSolicitada>): (r: Result<(Inventario, seq<Detalle>), Error>)
    ensures r.Success? ==> r.value.0.Keys == inv.Keys && |r.value.1| == |ls|
  {
    if ls == [] then Success((inv, []))
    else
      match ProcesarDetalles(inv, ls[..|ls| - 1])
      case Failure(e) => Failure(e)
      case Success((inv1, ds)) =>
        match ProcesarDetalle(inv1, ls[|ls| - 1])
        case Failure(e) => Failure(e)
        case Success((inv2, d)) => Success((inv2, ds + [d]))
  }

  /** The credit loop over a sale's lines: each line's quantity goes back to its product, in order. */
  function Acreditar(inv: Inventario, ds: seq<Detalle>): (r: Inventario)
    requires ProductosConocidos(inv, ds)
    ensures r.Keys == inv.Keys
  {
    if ds == [] then inv
    else
      var inv1 := Acreditar(inv, ds[..|ds| - 1]);
      var d := ds[|ds| - 1];
      inv1[d.productoId := inv1[d.productoId].Aumentar(d.cantidad)]
  }

  /** Crediting a sale's lines raises each product's stock by exactly the quantity the lines
      hold of it, and touches nothing else. */
  lemma {:induction false} AcreditarEfecto(inv: Inventario, ds: seq<Detalle>)
    requires ProductosConocidos(inv, ds)
    ensures forall p :: p in inv ==>
      && Acreditar(inv, ds)[p].stock == inv[p].stock + CantidadDe(ds, p)
      && Acreditar(inv, ds)[p].MismaFichaQue(inv[p])
  {
    if ds != [] {
      AcreditarEfecto(inv, ds[..|ds| - 1]);
    }
  }

  /** Crediting lines with positive quantities keeps every stock non-negative. */
  lemma AcreditarConservaNoNegativo(inv: Inventario, ds: seq<Detalle>)
    requires ProductosConocidos(inv, ds)
    requires forall i :: 0 <= i < |ds| ==> ds[i].cantidad >= 1
    requires forall p :: p in inv ==> inv[p].stock >= 0
    ensures forall p :: p in Acreditar(inv, ds) ==> Acreditar(inv, ds)[p].stock >= 0
  {
    AcreditarEfecto(inv, ds);
    forall p | p in inv ensures CantidadDe(ds, p) >= 0 {
      CantidadDeNoNegativa(ds, p);
    }
  }

  /** Lines produced from a request, position by position: same product and quantity, the
      product's price at the start of the run, and the subtotal the setters compute. */
  ghost predicate LineasDe(inv: Inventario, ls: seq<LineaSolicitada>, ds: seq<Detalle>) {
    && |ds| == |ls|
    && forall i :: 0 <= i < |ls| ==>
      && ls[i].productoId == Some(ds[i].productoId)
      && ds[i].productoId in inv
      && ds[i].cantidad == ls[i].cantidad
      && ds[i].precioUnitario == inv[ds[i].productoId].precio
      && ds[i].subtotal == Importe(ds[i].precioUnitario, ds[i].cantidad)
  }

  /** Lines priced against one store are priced against any store with the same keys and prices. */
  lemma LineasDeMismosPrecios(a: Inventario, b: Inventario, ls: seq<LineaSolicitada>, ds: seq<Detalle>)
    requires LineasDe(a, ls, ds) && a.Keys == b.Keys
    requires forall p :: p in a ==> b[p].precio == a[p].precio
    ensures LineasDe(b, ls, ds)
  {
  }

  /** A successful run debits each product by exactly the quantity the request asks of it,
      leaves prices, names and flags alone, keeps stocks non-negative, and its lines hold of
      each product what the request asked for. */
  lemma {:induction false} ProcesarDetallesStock(inv: Inventario, ls: seq<LineaSolicitada>)
    requires ProcesarDetalles(inv, ls).Success?
    ensures var nuevo, ds := ProcesarDetalles(inv, ls).value.0, ProcesarDetalles(inv, ls).value.1;
      && (forall p :: p in inv ==>
            && nuevo[p].stock == inv[p].stock - CantidadPedida(ls, p)
            && nuevo[p].MismaFichaQue(inv[p]))
      && (forall p :: CantidadDe(ds, p) == CantidadPedida(ls, p))
      && ((forall p :: p in inv ==> inv[p].stock >= 0) ==> forall p :: p in nuevo ==> nuevo[p].stock >= 0)
  {
    if ls != [] {
      var previo := ls[..|ls| - 1];
      ProcesarDetallesStock(inv, previo);
      var inv1, ds1 := ProcesarDetalles(inv, previo).value.0, ProcesarDetalles(inv, previo).value.1;
      var d := ProcesarDetalle(inv1, ls[|ls| - 1]).value.1;
      var ds := ds1 + [d];
      assert ds[..|ds| - 1] == ds1;
    }
  }

  /** A successful run yields one line per requested line, in request order, each priced at
      its product's price. */
  lemma {:induction false} ProcesarDetallesLineas(inv: Inventario, ls: seq<LineaSolicitada>)
    requires ProcesarDetalles(inv, ls).Success?
    ensures LineasDe(inv, ls, ProcesarDetalles(inv, ls).value.1)
  {
    if ls != [] {
      var previo := ls[..|ls| - 1];
      ProcesarDetallesLineas(inv, previo);
      ProcesarDetallesStock(inv, previo);
      var inv1, ds1 := ProcesarDetalles(inv, previo).value.0, ProcesarDetalles(inv, previo).value.1;
      var d := ProcesarDetalle(inv1, ls[|ls| - 1]).value.1;
      var ds := ds1 + [d];
      forall i | 0 <= i < |ls|
        ensures ls[i].productoId == Some(ds[i].productoId) && ds[i].productoId in inv
        ensures ds[i].cantidad == ls[i].cantidad
        ensures ds[i].precioUnitario == inv[ds[i].productoId].precio
        ensures ds[i].subtotal == Importe(ds[i].precioUnitario, ds[i].cantidad)
      {
        if i < |previo| {
          assert ls[i] == previo[i] && ds[i] == ds1[i];
        } else {
          assert inv1[d.productoId].MismaFichaQue(inv[d.productoId]);
        }
      }
    }
  }

  /** Both of the above together. */
  lemma ProcesarDetallesEfecto(inv: Inventario, ls: seq<LineaSolicitada>)
    requires ProcesarDetalles(inv, ls).Success?
    ensures var nuevo, ds := ProcesarDetalles(inv, ls).value.0, ProcesarDetalles(inv, ls).value.1;
      && nuevo.Keys == inv.Keys
      && (forall p :: p in inv ==>
            && nuevo[p].stock == inv[p].stock - CantidadPedida(ls, p)
            && nuevo[p].MismaFichaQue(inv[p]))
      && LineasDe(inv, ls, ds)
      && (forall p :: CantidadDe(ds, p) == CantidadPedida(ls, p))
      && ((forall p :: p in inv ==> inv[p].stock >= 0) ==> forall p :: p in nuevo ==> nuevo[p].stock >= 0)
  {
    ProcesarDetallesStock(inv, ls);
    ProcesarDetallesLineas(inv, ls);
  }

  /** Once a prefix of the request fails, the whole run fails with the same error. */
  lemma {:induction false} ProcesarDetallesPrefijo(inv: Inventario, ls: seq<LineaSolicitada>, n: nat)
    requires n <= |ls|
    requires ProcesarDetalles(inv, ls[..n]).Failure?
    ensures ProcesarDetalles(inv, ls) == ProcesarDetalles(inv, ls[..n])
    decreases |ls| - n
  {
    if n < |ls| {
      assert ls[..n + 1][..n] == ls[..n];
      ProcesarDetallesPrefijo(inv, ls, n + 1);
    } else {
      assert ls[..n] == ls;
    }
  }

  /** The request's demand is feasible: every line names an active product of the store and,
      product by product, the total quantity asked for fits in its stock. */
  ghost predicate Factible(inv: Inventario, ls: seq<LineaSolicitada>) {
    && (forall i :: 0 <= i < |ls| ==>
          ls[i].productoId.Some? && ls[i].productoId.value in inv && inv[ls[i].productoId.value].activo)
    && (forall p :: p in inv ==> CantidadPedida(ls, p) <= inv[p].stock)
  }

  /** Debiting line by line with a check before each debit succeeds exactly when checking the
      whole demand up front would: the sequential run behaves as validate-all-then-commit. */
  lemma {:induction false} ProcesarDetallesExito(inv: Inventario, ls: seq<LineaSolicitada>)
    requires forall p :: p in inv ==> inv[p].stock >= 0
    requires forall i :: 0 <= i < |ls| ==> ls[i].cantidad >= 1
    ensures ProcesarDetalles(inv, ls).Success? <==> Factible(inv, ls)
  {
    if ls != [] {
      var previo := ls[..|ls| - 1];
      var l := ls[|ls| - 1];
      ProcesarDetallesExito(inv, previo);
      assert forall i :: 0 <= i < |previo| ==> previo[i] == ls[i];
      if ProcesarDetalles(inv, ls).Success? {
        ProcesarDetallesStock(inv, previo);
        var inv1 := ProcesarDetalles(inv, previo).value.0;
        assert Factible(inv, ls) by {
          forall p | p in inv ensures CantidadPedida(ls, p) <= inv[p].stock {
            assert inv1[p].stock >= 0;
          }
        }
      }
      if Factible(inv, ls) {
        assert Factible(inv, previo) by {
          forall p | p in inv ensures CantidadPedida(previo, p) <= inv[p].stock {
            assert l.cantidad >= 1;
          }
        }
        ProcesarDetallesStock(inv, previo);
      }
    }
  }

  /** Round trip: crediting the lines a run produced gives back the store the run started from. */
  lemma ProcesarLuegoAcreditar(inv: Inventario, ls: seq<LineaSolicitada>)
    requires ProcesarDetalles(inv, ls).Success?
    ensures var nuevo, ds := ProcesarDetalles(inv, ls).value.0, ProcesarDetalles(inv, ls).value.1;
      ProductosConocidos(nuevo, ds) && Acreditar(nuevo, ds) == inv
  {
    ProcesarDetallesEfecto(inv, ls);
    var nuevo, ds := ProcesarDetalles(inv, ls).value.0, ProcesarDetalles(inv, ls).value.1;
    AcreditarEfecto(nuevo, ds);
    var r := Acreditar(nuevo, ds);
    forall p | p in inv ensures r[p] == inv[p] {
      assert r[p].MismaFichaQue(nuevo[p]) && nuevo[p].MismaFichaQue(inv[p]);
    }
  }
}
