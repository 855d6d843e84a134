/** The sale lifecycle service (`VentaService`): create, update, change state and delete a sale
    against the product and customer stores. The class-level transaction makes each operation
    all-or-nothing: the methods work on local copies of the stores and assign the fields only
    once the whole operation has succeeded. */
module VentaServicio {
  import opened Comun
  import opened ProductoEntidad
  import opened DetalleVentaEntidad
  import opened VentaEntidad
  import opened Existencias
  import opened Transiciones

  /** The one customer field the lifecycle reads. */
  datatype Cliente = Cliente(activo: bool)

  /** What every stored sale satisfies: totals that match its lines, and lines that obey the
      entity constraints and name products of the store. */
  ghost predicate VentaBienFormada(v: VentaDatos, inv: Inventario) {
    && v.TotalesConsistentes()
    && forall i :: 0 <= i < |v.detalles| ==> v.detalles[i].Valido() && v.detalles[i].productoId in inv
  }

  /** `crearVenta`: the customer checks, then every requested line through the per-line worker
      in request order, then the totals. */
  function Crear(clientes: map<ClienteId, Cliente>, inv: Inventario, clienteId: Option<ClienteId>,
                 metodoPago: Option<MetodoPago>, observaciones: Option<string>,
                 solicitud: seq<LineaSolicitada>, ahora: Instante): (r: Result<(Inventario, VentaDatos), Error>)
    ensures clienteId.None? ==> r == Failure(ClienteObligatorio)
    ensures clienteId.Some? && clienteId.value !in clientes ==> r == Failure(ClienteNoEncontrado)
    ensures clienteId.Some? && clienteId.value in clientes && !clientes[clienteId.value].activo ==>
      r == Failure(ClienteInactivo)
    ensures r.Success? ==>
      var v := r.value.1;
      && r.value.0.Keys == inv.Keys
      && v.estado == Pendiente && v.TotalesConsistentes()
      && v.clienteId == clienteId && v.fechaVenta == ahora
      && v.metodoPago == metodoPago && v.observaciones == observaciones
  {
    if clienteId.None? then Failure(ClienteObligatorio)
    else if clienteId.value !in clientes then Failure(ClienteNoEncontrado)
    else if !clientes[clienteId.value].activo then Failure(ClienteInactivo)
    else
      match ProcesarDetalles(inv, solicitud)
      case Failure(e) => Failure(e)
      case Success((nuevo, ds)) =>
        var v := NuevaVenta(ahora).(clienteId := clienteId, metodoPago := metodoPago,
                                    observaciones := observaciones, detalles := ds);
        Success((nuevo, v.CalcularTotales()))
  }

  /** `actualizarVenta` once the sale is found: only a PENDIENTE sale may change; its old lines
      are credited back, then the new lines are checked and debited against that stock. */
  function Actualizar(inv: Inventario, v: VentaDatos, metodoPago: Option<MetodoPago>,
                      observaciones: Option<string>, solicitud: seq<LineaSolicitada>): (r: Result<(Inventario, VentaDatos), Error>)
    requires ProductosConocidos(inv, v.detalles)
    ensures v.estado != Pendiente ==> r == Failure(VentaNoModificable)
    ensures r.Success? ==>
      var w := r.value.1;
      && r.value.0.Keys == inv.Keys
      && w.estado == Pendiente && w.TotalesConsistentes()
      && w.clienteId == v.clienteId && w.fechaVenta == v.fechaVenta
      && w.metodoPago == metodoPago && w.observaciones == observaciones
  {
    if v.estado != Pendiente then Failure(VentaNoModificable)
    else
      match ProcesarDetalles(Acreditar(inv, v.detalles), solicitud)
      case Failure(e) => Failure(e)
      case Success((nuevo, ds)) =>
        Success((nuevo, v.(metodoPago := metodoPago, observaciones := observaciones, detalles := ds).CalcularTotales()))
  }

  /** `cambiarEstadoVenta` once the sale is found: the transition table decides; a cancellation
      credits every line back; the stored state becomes the requested one. */
  function CambiarEstado(inv: Inventario, v: VentaDatos, nuevo: EstadoVenta): (r: Result<(Inventario, VentaDatos), Error>)
    requires ProductosConocidos(inv, v.detalles)
    ensures r.Success? <==> (v.estado, nuevo) in TRANSICIONES
    ensures r.Failure? ==> r.error == TransicionNoValida
    ensures r.Success? ==> r.value.1 == v.(estado := nuevo) && r.value.0.Keys == inv.Keys
    ensures r.Success? ==> forall p :: p in inv ==>
      && r.value.0[p].stock == inv[p].stock + (if nuevo == Cancelada then CantidadDe(v.detalles, p) else 0)
      && r.value.0[p].MismaFichaQue(inv[p])
  {
    if !EsTransicionValida(v.estado, nuevo) then Failure(TransicionNoValida)
    else if nuevo == Cancelada && v.estado != Cancelada then
      AcreditarEfecto(inv, v.detalles);
      Success((Acreditar(inv, v.detalles), v.(estado := nuevo)))
    else
      Success((inv, v.(estado := nuevo)))
  }

  /** `eliminarVenta` once the sale is found: only a PENDIENTE sale may go, and its lines are
      credited back first. */
  function Eliminar(inv: Inventario, v: VentaDatos): (r: Result<Inventario, Error>)
    requires ProductosConocidos(inv, v.detalles)
    ensures r.Success? <==> v.estado == Pendiente
    ensures r.Failure? ==> r.error == VentaNoEliminable
    ensures r.Success? ==> r.value.Keys == inv.Keys && forall p :: p in inv ==>
      r.value[p].stock == inv[p].stock + CantidadDe(v.detalles, p) && r.value[p].MismaFichaQue(inv[p])
  {
    if v.estado != Pendiente then Failure(VentaNoEliminable)
    else
      AcreditarEfecto(inv, v.detalles);
      Success(Acreditar(inv, v.detalles))
  }

  /** Create succeeds exactly when the customer is given, known and active and the request's
      demand fits the stock; it then debits each product by the quantity asked of it and
      stores one line per requested line, in order, at the product's price. */
  lemma CrearEfecto(clientes: map<ClienteId, Cliente>, inv: Inventario, clienteId: Option<ClienteId>,
                    metodoPago: Option<MetodoPago>, observaciones: Option<string>,
                    solicitud: seq<LineaSolicitada>, ahora: Instante)
    requires forall p :: p in inv ==> inv[p].stock >= 0
    requires forall i :: 0 <= i < |solicitud| ==> solicitud[i].cantidad >= 1
    ensures var r := Crear(clientes, inv, clienteId, metodoPago, observaciones, solicitud, ahora);
      && (r.Success? <==>
            clienteId.Some? && clienteId.value in clientes && clientes[clienteId.value].activo
            && Factible(inv, solicitud))
      && (r.Success? ==>
            && r.value.0.Keys == inv.Keys
            && (forall p :: p in inv ==>
                  && r.value.0[p].stock == inv[p].stock - CantidadPedida(solicitud, p) >= 0
                  && r.value.0[p].MismaFichaQue(inv[p]))
            && LineasDe(inv, solicitud, r.value.1.detalles))
  {
    ProcesarDetallesExito(inv, solicitud);
    if ProcesarDetalles(inv, solicitud).Success? {
      ProcesarDetallesEfecto(inv, solicitud);
    }
  }

  /** Update succeeds exactly when the sale is PENDIENTE and the new demand fits the stock
      once the old lines are back. */
  lemma ActualizarExito(inv: Inventario, v: VentaDatos, metodoPago: Option<MetodoPago>,
                        observaciones: Option<string>, solicitud: seq<LineaSolicitada>)
    requires ProductosConocidos(inv, v.detalles)
    requires forall p :: p in inv ==> inv[p].stock >= 0
    requires forall i :: 0 <= i < |v.detalles| ==> v.detalles[i].cantidad >= 1
    requires forall i :: 0 <= i < |solicitud| ==> solicitud[i].cantidad >= 1
    ensures Actualizar(inv, v, metodoPago, observaciones, solicitud).Success? <==>
      v.estado == Pendiente && Factible(Acreditar(inv, v.detalles), solicitud)
  {
    AcreditarConservaNoNegativo(inv, v.detalles);
    ProcesarDetallesExito(Acreditar(inv, v.detalles), solicitud);
  }

  /** A successful update leaves each product at its old stock plus what the old lines held
      minus what the new lines ask, and the new lines replace the old ones in request order. */
  lemma ActualizarEfecto(inv: Inventario, v: VentaDatos, metodoPago: Option<MetodoPago>,
                         observaciones: Option<string>, solicitud: seq<LineaSolicitada>)
    requires ProductosConocidos(inv, v.detalles)
    requires Actualizar(inv, v, metodoPago, observaciones, solicitud).Success?
    ensures var r := Actualizar(inv, v, metodoPago, observaciones, solicitud).value;
      && (forall p :: p in inv ==>
            && r.0[p].stock == inv[p].stock + CantidadDe(v.detalles, p) - CantidadPedida(solicitud, p)
            && r.0[p].MismaFichaQue(inv[p]))
      && LineasDe(inv, solicitud, r.1.detalles)
  {
    var acreditado := Acreditar(inv, v.detalles);
    AcreditarEfecto(inv, v.detalles);
    ProcesarDetallesStock(acreditado, solicitud);
    ProcesarDetallesLineas(acreditado, solicitud);
    LineasDeMismosPrecios(acreditado, inv, solicitud, ProcesarDetalles(acreditado, solicitud).value.1);
  }

  /** Round trip: deleting a sale right after creating it gives back every product's stock. */
  lemma CrearLuegoEliminar(clientes: map<ClienteId, Cliente>, inv: Inventario, clienteId: Option<ClienteId>,
                           metodoPago: Option<MetodoPago>, observaciones: Option<string>,
                           solicitud: seq<LineaSolicitada>, ahora: Instante)
    requires Crear(clientes, inv, clienteId, metodoPago, observaciones, solicitud, ahora).Success?
    ensures var r := Crear(clientes, inv, clienteId, metodoPago, observaciones, solicitud, ahora);
      ProductosConocidos(r.value.0, r.value.1.detalles) && Eliminar(r.value.0, r.value.1) == Success(inv)
  {
    ProcesarLuegoAcreditar(inv, solicitud);
  }

  /** Round trip: cancelling a sale right after creating it gives back every product's stock. */
  lemma CrearLuegoCancelar(clientes: map<ClienteId, Cliente>, inv: Inventario, clienteId: Option<ClienteId>,
                           metodoPago: Option<MetodoPago>, observaciones: Option<string>,
                           solicitud: seq<LineaSolicitada>, ahora: Instante)
    requires Crear(clientes, inv, clienteId, metodoPago, observaciones, solicitud, ahora).Success?
    ensures var r := Crear(clientes, inv, clienteId, metodoPago, observaciones, solicitud, ahora);
      && ProductosConocidos(r.value.0, r.value.1.detalles)
      && CambiarEstado(r.value.0, r.value.1, Cancelada) == Success((inv, r.value.1.(estado := Cancelada)))
  {
    ProcesarLuegoAcreditar(inv, solicitud);
  }

  /** Stock is never negative and every price is positive. */
  ghost predicate InventarioValido(inv: Inventario) {
    forall p :: p in inv ==> inv[p].stock >= 0 && inv[p].precio > 0
  }

  /** Every stored sale is well formed against `inv`, under a key already handed out. */
  ghost predicate VentasValidas(ventas: map<VentaId, VentaDatos>, inv: Inventario, siguiente: VentaId) {
    forall id :: id in ventas ==> id < siguiente && VentaBienFormada(ventas[id], inv)
  }

  /** A store whose products keep their keys and their ficha, with no stock below zero, is
      still valid, and so are the sales over it. */
  lemma MismasFichasConservanValidez(inv: Inventario, nuevo: Inventario, ventas: map<VentaId, VentaDatos>, siguiente: VentaId)
    requires InventarioValido(inv) && VentasValidas(ventas, inv, siguiente)
    requires nuevo.Keys == inv.Keys
    requires forall p :: p in inv ==> nuevo[p].stock >= 0 && nuevo[p].MismaFichaQue(inv[p])
    ensures InventarioValido(nuevo) && VentasValidas(ventas, nuevo, siguiente)
  {
    assert forall p :: p in inv <==> p in nuevo;
  }

  /** A successful create keeps the stores valid and files the new sale under a fresh key. */
  lemma CrearConservaValidez(clientes: map<ClienteId, Cliente>, inv: Inventario,
                             ventas: map<VentaId, VentaDatos>, siguiente: VentaId,
                             clienteId: Option<ClienteId>, metodoPago: Option<MetodoPago>,
                             observaciones: Option<string>, solicitud: seq<LineaSolicitada>, ahora: Instante)
    requires InventarioValido(inv) && VentasValidas(ventas, inv, siguiente)
    requires forall i :: 0 <= i < |solicitud| ==> solicitud[i].cantidad >= 1
    requires Crear(clientes, inv, clienteId, metodoPago, observaciones, solicitud, ahora).Success?
    ensures var r := Crear(clientes, inv, clienteId, metodoPago, observaciones, solicitud, ahora).value;
      && siguiente !in ventas
      && InventarioValido(r.0) && VentasValidas(ventas[siguiente := r.1], r.0, siguiente + 1)
  {
    CrearEfecto(clientes, inv, clienteId, metodoPago, observaciones, solicitud, ahora);
    var r := Crear(clientes, inv, clienteId, metodoPago, observaciones, solicitud, ahora).value;
    MismasFichasConservanValidez(inv, r.0, ventas, siguiente);
    var ds := r.1.detalles;
    forall i | 0 <= i < |ds| ensures ds[i].Valido() && ds[i].productoId in r.0 {
      assert ds[i].cantidad == solicitud[i].cantidad;
    }
  }

  /** A successful update keeps the stores valid. */
  lemma ActualizarConservaValidez(inv: Inventario, ventas: map<VentaId, VentaDatos>, siguiente: VentaId, id: VentaId,
                                  metodoPago: Option<MetodoPago>, observaciones: Option<string>,
                                  solicitud: seq<LineaSolicitada>)
    requires InventarioValido(inv) && VentasValidas(ventas, inv, siguiente) && id in ventas
    requires forall i :: 0 <= i < |solicitud| ==> solicitud[i].cantidad >= 1
    requires Actualizar(inv, ventas[id], metodoPago, observaciones, solicitud).Success?
    ensures var r := Actualizar(inv, ventas[id], metodoPago, observaciones, solicitud).value;
      InventarioValido(r.0) && VentasValidas(ventas[id := r.1], r.0, siguiente)
  {
    var v := ventas[id];
    ActualizarEfecto(inv, v, metodoPago, observaciones, solicitud);
    var r := Actualizar(inv, v, metodoPago, observaciones, solicitud).value;
    AcreditarConservaNoNegativo(inv, v.detalles);
    ProcesarDetallesStock(Acreditar(inv, v.detalles), solicitud);
    MismasFichasConservanValidez(inv, r.0, ventas, siguiente);
    var ds := r.1.detalles;
    forall i | 0 <= i < |ds| ensures ds[i].Valido() && ds[i].productoId in r.0 {
      assert ds[i].cantidad == solicitud[i].cantidad;
    }
  }

  /** A successful state change keeps the stores valid. */
  lemma CambiarEstadoConservaValidez(inv: Inventario, ventas: map<VentaId, VentaDatos>, siguiente: VentaId, id: VentaId,
                                     nuevoEstado: EstadoVenta)
    requires InventarioValido(inv) && VentasValidas(ventas, inv, siguiente) && id in ventas
    requires CambiarEstado(inv, ventas[id], nuevoEstado).Success?
    ensures var r := CambiarEstado(inv, ventas[id], nuevoEstado).value;
      InventarioValido(r.0) && VentasValidas(ventas[id := r.1], r.0, siguiente)
  {
    var r := CambiarEstado(inv, ventas[id], nuevoEstado).value;
    forall p | p in inv ensures r.0[p].stock >= 0 {
      CantidadDeNoNegativa(ventas[id].detalles, p);
    }
    MismasFichasConservanValidez(inv, r.0, ventas, siguiente);
  }

  /** A successful delete keeps the stores valid. */
  lemma EliminarConservaValidez(inv: Inventario, ventas: map<VentaId, VentaDatos>, siguiente: VentaId, id: VentaId)
    requires InventarioValido(inv) && VentasValidas(ventas, inv, siguiente) && id in ventas
    requires Eliminar(inv, ventas[id]).Success?
    ensures var r := Eliminar(inv, ventas[id]).value;
      InventarioValido(r) && VentasValidas(ventas - {id}, r, siguiente)
  {
    var r := Eliminar(inv, ventas[id]).value;
    forall p | p in inv ensures r[p].stock >= 0 {
      CantidadDeNoNegativa(ventas[id].detalles, p);
    }
    MismasFichasConservanValidez(inv, r, ventas, siguiente);
  }

  /** The loop that hands each line's quantity back to its product (`aumentarStock`), in order. */
  method RestaurarStock(inv: Inventario, ds: seq<Detalle>) returns (r: Inventario)
    requires ProductosConocidos(inv, ds)
    ensures r == Acreditar(inv, ds)
  {
    r := inv;
    var i := 0;
    while i < |ds|
      invariant 0 <= i <= |ds|
      invariant r == Acreditar(inv, ds[..i])
    {
      assert ds[..i + 1][..i] == ds[..i];
      r := r[ds[i].productoId := r[ds[i].productoId].Aumentar(ds[i].cantidad)];
      i := i + 1;
    }
    assert ds[..i] == ds;
  }

  /** The loop that runs each requested line through `procesarDetalleVenta`, in order; the
      first failure ends it. */
  method ProcesarSolicitud(inv: Inventario, solicitud: seq<LineaSolicitada>) returns (r: Result<(Inventario, seq<Detalle>), Error>)
    ensures r == ProcesarDetalles(inv, solicitud)
  {
    var actual := inv;
    var detalles: seq<Detalle> := [];
    var i := 0;
    while i < |solicitud|
      invariant 0 <= i <= |solicitud|
      invariant ProcesarDetalles(inv, solicitud[..i]) == Success((actual, detalles))
    {
      assert solicitud[..i + 1][..i] == solicitud[..i];
      match ProcesarDetalle(actual, solicitud[i])
      case Failure(e) =>
        ProcesarDetallesPrefijo(inv, solicitud, i + 1);
        return Failure(e);
      case Success((siguiente, d)) =>
        actual, detalles := siguiente, detalles + [d];
      i := i + 1;
    }
    assert solicitud[..i] == solicitud;
    r := Success((actual, detalles));
  }

  /** The update loop: each requested line runs through `procesarDetalleVenta` and is then
      appended to the sale with `agregarDetalle`; the first failure ends it. */
  method ProcesarYAgregar(inv: Inventario, venta: VentaDatos, solicitud: seq<LineaSolicitada>)
    returns (r: Result<(Inventario, VentaDatos), Error>)
    ensures match ProcesarDetalles(inv, solicitud)
      case Failure(e) => r == Failure(e)
      case Success((nuevo, ds)) =>
        && r.Success? && r.value.0 == nuevo
        && r.value.1.detalles == venta.detalles + ds && r.value.1.MismaCabeceraQue(venta)
  {
    var actual := inv;
    var v := venta;
    ghost var ds: seq<Detalle> := [];
    var j := 0;
    while j < |solicitud|
      invariant 0 <= j <= |solicitud|
      invariant ProcesarDetalles(inv, solicitud[..j]) == Success((actual, ds))
      invariant v.detalles == venta.detalles + ds && v.MismaCabeceraQue(venta)
    {
      assert solicitud[..j + 1][..j] == solicitud[..j];
      match ProcesarDetalle(actual, solicitud[j])
      case Failure(e) =>
        ProcesarDetallesPrefijo(inv, solicitud, j + 1);
        return Failure(e);
      case Success((siguiente, d)) =>
        actual, ds := siguiente, ds + [d];
        v := v.AgregarDetalle(d);
      j := j + 1;
    }
    assert solicitud[..j] == solicitud;
    r := Success((actual, v));
  }

  /** The service over its three stores. */
  class VentaService {
    var productos: Inventario
    var clientes: map<ClienteId, Cliente>
    var ventas: map<VentaId, VentaDatos>
    /** The next key the sale store's identity column hands out. */
    var siguienteId: VentaId

    ghost predicate Valid()
      reads this
    {
      InventarioValido(productos) && VentasValidas(ventas, productos, siguienteId)
    }

    constructor (productos: Inventario, clientes: map<ClienteId, Cliente>)
      requires InventarioValido(productos)
      ensures Valid()
      ensures this.productos == productos && this.clientes == clientes && ventas == map[]
    {
      this.productos := productos;
      this.clientes := clientes;
      ventas := map[];
      siguienteId := 0;
    }

    /** `crearVenta`; on success the new sale's key. Nothing is stored unless every line
        goes through. */
    method CrearVenta(clienteId: Option<ClienteId>, metodoPago: Option<MetodoPago>, observaciones: Option<string>,
                      solicitud: seq<LineaSolicitada>, ahora: Instante) returns (r: Result<VentaId, Error>)
      requires Valid()
      requires forall i :: 0 <= i < |solicitud| ==> solicitud[i].cantidad >= 1
      modifies this
      ensures Valid() && clientes == old(clientes)
      ensures match Crear(old(clientes), old(productos), clienteId, metodoPago, observaciones, solicitud, ahora)
        case Failure(e) =>
          r == Failure(e) && productos == old(productos) && ventas == old(ventas) && siguienteId == old(siguienteId)
        case Success((nuevo, v)) =>
          && r == Success(old(siguienteId)) && old(siguienteId) !in old(ventas)
          && productos == nuevo && ventas == old(ventas)[old(siguienteId) := v]
          && siguienteId == old(siguienteId) + 1
    {
      if clienteId.None? {
        return Failure(ClienteObligatorio);
      }
      if clienteId.value !in clientes {
        return Failure(ClienteNoEncontrado);
      }
      if !clientes[clienteId.value].activo {
        return Failure(ClienteInactivo);
      }
      var venta := NuevaVenta(ahora).(clienteId := clienteId, metodoPago := metodoPago, observaciones := observaciones);
      var procesado := ProcesarSolicitud(productos, solicitud);
      if procesado.Failure? {
        // the transaction rolls back: no store is assigned
        return Failure(procesado.error);
      }
      var (inv, detalles) := procesado.value;
      venta := venta.(detalles := detalles).CalcularTotales();
      CrearConservaValidez(clientes, productos, ventas, siguienteId, clienteId, metodoPago, observaciones, solicitud, ahora);
      var id := siguienteId;
      productos, ventas, siguienteId := inv, ventas[id := venta], siguienteId + 1;
      r := Success(id);
    }

    /** `actualizarVenta`; on success the updated sale. */
    method ActualizarVenta(id: VentaId, metodoPago: Option<MetodoPago>, observaciones: Option<string>,
                           solicitud: seq<LineaSolicitada>) returns (r: Result<VentaDatos, Error>)
      requires Valid()
      requires forall i :: 0 <= i < |solicitud| ==> solicitud[i].cantidad >= 1
      modifies this
      ensures Valid() && clientes == old(clientes) && siguienteId == old(siguienteId)
      ensures id !in old(ventas) ==>
        r == Failure(VentaNoEncontrada) && productos == old(productos) && ventas == old(ventas)
      ensures id in old(ventas) ==>
        match Actualizar(old(productos), old(ventas)[id], metodoPago, observaciones, solicitud)
        case Failure(e) => r == Failure(e) && productos == old(productos) && ventas == old(ventas)
        case Success((nuevo, v)) => r == Success(v) && productos == nuevo && ventas == old(ventas)[id := v]
    {
      if id !in ventas {
        return Failure(VentaNoEncontrada);
      }
      var venta := ventas[id];
      if venta.estado != Pendiente {
        return Failure(VentaNoModificable);
      }
      var acreditado := RestaurarStock(productos, venta.detalles);
      var cabecera := venta.(metodoPago := metodoPago, observaciones := observaciones);
      var procesado := ProcesarYAgregar(acreditado, cabecera.(detalles := []), solicitud);
      if procesado.Failure? {
        return Failure(procesado.error);
      }
      var inv;
      inv, venta := procesado.value.0, procesado.value.1;
      ghost var ds := ProcesarDetalles(acreditado, solicitud).value.1;
      assert venta.detalles == [] + ds == ds;
      venta := venta.CalcularTotales();
      assert venta == cabecera.(detalles := ds).CalcularTotales();
      ActualizarConservaValidez(productos, ventas, siguienteId, id, metodoPago, observaciones, solicitud);
      productos, ventas := inv, ventas[id := venta];
      r := Success(venta);
    }

    /** `cambiarEstadoVenta`; on success the sale in its new state. */
    method CambiarEstadoVenta(id: VentaId, nuevoEstado: EstadoVenta) returns (r: Result<VentaDatos, Error>)
      requires Valid()
      modifies this
      ensures Valid() && clientes == old(clientes) && siguienteId == old(siguienteId)
      ensures id !in old(ventas) ==>
        r == Failure(VentaNoEncontrada) && productos == old(productos) && ventas == old(ventas)
      ensures id in old(ventas) ==>
        match CambiarEstado(old(productos), old(ventas)[id], nuevoEstado)
        case Failure(e) => r == Failure(e) && productos == old(productos) && ventas == old(ventas)
        case Success((nuevo, v)) => r == Success(v) && productos == nuevo && ventas == old(ventas)[id := v]
    {
      if id !in ventas {
        return Failure(VentaNoEncontrada);
      }
      var venta := ventas[id];
      var estadoAnterior := venta.estado;
      if !EsTransicionValida(estadoAnterior, nuevoEstado) {
        return Failure(TransicionNoValida);
      }
      var inv := productos;
      if nuevoEstado == Cancelada && estadoAnterior != Cancelada {
        inv := RestaurarStock(productos, venta.detalles);
      }
      CambiarEstadoConservaValidez(productos, ventas, siguienteId, id, nuevoEstado);
      venta := venta.(estado := nuevoEstado);
      productos, ventas := inv, ventas[id := venta];
      r := Success(venta);
    }

    /** `eliminarVenta`. */
    method EliminarVenta(id: VentaId) returns (r: Result<(), Error>)
      requires Valid()
      modifies this
      ensures Valid() && clientes == old(clientes) && siguienteId == old(siguienteId)
      ensures id !in old(ventas) ==>
        r == Failure(VentaNoEncontrada) && productos == old(productos) && ventas == old(ventas)
      ensures id in old(ventas) ==>
        match Eliminar(old(productos), old(ventas)[id])
        case Failure(e) => r == Failure(e) && productos == old(productos) && ventas == old(ventas)
        case Success(nuevo) => r == Success(()) && productos == nuevo && ventas == old(ventas) - {id}
    {
      if id !in ventas {
        return Failure(VentaNoEncontrada);
      }
      var venta := ventas[id];
      if venta.estado != Pendiente {
        return Failure(VentaNoEliminable);
      }
      var inv := RestaurarStock(productos, venta.detalles);
      EliminarConservaValidez(productos, ventas, siguienteId, id);
      productos, ventas := inv, ventas - {id};
      r := Success(());
    }
  }
}
