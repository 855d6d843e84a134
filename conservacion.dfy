/** Conservation of stock across the whole lifecycle: for every product, what is on the shelf
    plus what the live (not cancelled) sales hold of it never changes. */
module Conservacion {
  import opened Comun
  import opened ProductoEntidad
  import opened DetalleVentaEntidad
  import opened VentaEntidad
  import opened Existencias
  import opened Transiciones
  import opened VentaServicio

  /** The quantity of `p` a sale keeps off the shelf: its lines' quantity, unless it was cancelled. */
  function Reservado(v: VentaDatos, p: ProductoId): int
  {
    if v.estado == Cancelada then 0 else CantidadDe(v.detalles, p)
  }

  /** The quantity of `p` the stored sales keep off the shelf between them. */
  ghost function Comprometido(ventas: map<VentaId, VentaDatos>, p: ProductoId): int
    decreases |ventas|
  {
    if ventas == map[] then 0
    else
      HayVenta(ventas);
      var id :| id in ventas;
      Reservado(ventas[id], p) + Comprometido(ventas - {id}, p)
  }

  lemma HayVenta(ventas: map<VentaId, VentaDatos>)
    requires ventas != map[]
    ensures exists id :: id in ventas
  {
    if forall id :: id !in ventas {
      assert false;
    }
  }

  /** Any one sale can be taken out of the sum first. */
  lemma {:induction false} ComprometidoSin(ventas: map<VentaId, VentaDatos>, id: VentaId, p: ProductoId)
    requires id in ventas
    ensures Comprometido(ventas, p) == Reservado(ventas[id], p) + Comprometido(ventas - {id}, p)
    decreases |ventas|
  {
    var elegido :| elegido in ventas && Comprometido(ventas, p) == Reservado(ventas[elegido], p) + Comprometido(ventas - {elegido}, p);
    if elegido != id {
      ComprometidoSin(ventas - {elegido}, id, p);
      ComprometidoSin(ventas - {id}, elegido, p);
      assert ventas - {elegido} - {id} == ventas - {id} - {elegido};
    }
  }

  /** Filing a sale under a new key adds what it holds. */
  lemma ComprometidoAgrega(ventas: map<VentaId, VentaDatos>, id: VentaId, v: VentaDatos, p: ProductoId)
    requires id !in ventas
    ensures Comprometido(ventas[id := v], p) == Comprometido(ventas, p) + Reservado(v, p)
  {
    ComprometidoSin(ventas[id := v], id, p);
    assert ventas[id := v] - {id} == ventas;
  }

  /** Replacing a stored sale swaps what it holds. */
  lemma ComprometidoReemplaza(ventas: map<VentaId, VentaDatos>, id: VentaId, v: VentaDatos, p: ProductoId)
    requires id in ventas
    ensures Comprometido(ventas[id := v], p) == Comprometido(ventas, p) - Reservado(ventas[id], p) + Reservado(v, p)
  {
    ComprometidoSin(ventas, id, p);
    ComprometidoSin(ventas[id := v], id, p);
    assert ventas[id := v] - {id} == ventas - {id};
  }

  /** A successful create moves exactly the requested quantities from the shelf into the new sale. */
  lemma CrearConserva(clientes: map<ClienteId, Cliente>, inv: Inventario,
                      ventas: map<VentaId, VentaDatos>, siguiente: VentaId,
                      clienteId: Option<ClienteId>, metodoPago: Option<MetodoPago>,
                      observaciones: Option<string>, solicitud: seq<LineaSolicitada>, ahora: Instante)
    requires siguiente !in ventas
    requires Crear(clientes, inv, clienteId, metodoPago, observaciones, solicitud, ahora).Success?
    ensures var r := Crear(clientes, inv, clienteId, metodoPago, observaciones, solicitud, ahora).value;
      forall p :: p in inv ==>
        r.0[p].stock + Comprometido(ventas[siguiente := r.1], p) == inv[p].stock + Comprometido(ventas, p)
  {
    var r := Crear(clientes, inv, clienteId, metodoPago, observaciones, solicitud, ahora).value;
    ProcesarDetallesStock(inv, solicitud);
    forall p | p in inv
      ensures r.0[p].stock + Comprometido(ventas[siguiente := r.1], p) == inv[p].stock + Comprometido(ventas, p)
    {
      ComprometidoAgrega(ventas, siguiente, r.1, p);
    }
  }

  /** A successful update returns the old lines' quantities to the shelf and takes the new ones. */
  lemma ActualizarConserva(inv: Inventario, ventas: map<VentaId, VentaDatos>, id: VentaId,
                           metodoPago: Option<MetodoPago>, observaciones: Option<string>,
                           solicitud: seq<LineaSolicitada>)
    requires id in ventas && ProductosConocidos(inv, ventas[id].detalles)
    requires Actualizar(inv, ventas[id], metodoPago, observaciones, solicitud).Success?
    ensures var r := Actualizar(inv, ventas[id], metodoPago, observaciones, solicitud).value;
      forall p :: p in inv ==>
        r.0[p].stock + Comprometido(ventas[id := r.1], p) == inv[p].stock + Comprometido(ventas, p)
  {
    var v := ventas[id];
    var r := Actualizar(inv, v, metodoPago, observaciones, solicitud).value;
    var acreditado := Acreditar(inv, v.detalles);
    AcreditarEfecto(inv, v.detalles);
    ProcesarDetallesStock(acreditado, solicitud);
    forall p | p in inv
      ensures r.0[p].stock + Comprometido(ventas[id := r.1], p) == inv[p].stock + Comprometido(ventas, p)
    {
      ComprometidoReemplaza(ventas, id, r.1, p);
    }
  }

  /** A successful state change either leaves shelf and sales alone or, on cancellation, moves
      the sale's quantities back to the shelf. */
  lemma CambiarEstadoConserva(inv: Inventario, ventas: map<VentaId, VentaDatos>, id: VentaId, nuevoEstado: EstadoVenta)
    requires id in ventas && ProductosConocidos(inv, ventas[id].detalles)
    requires CambiarEstado(inv, ventas[id], nuevoEstado).Success?
    ensures var r := CambiarEstado(inv, ventas[id], nuevoEstado).value;
      forall p :: p in inv ==>
        r.0[p].stock + Comprometido(ventas[id := r.1], p) == inv[p].stock + Comprometido(ventas, p)
  {
    var r := CambiarEstado(inv, ventas[id], nuevoEstado).value;
    TransicionAvanza(ventas[id].estado, nuevoEstado);
    forall p | p in inv
      ensures r.0[p].stock + Comprometido(ventas[id := r.1], p) == inv[p].stock + Comprometido(ventas, p)
    {
      ComprometidoReemplaza(ventas, id, r.1, p);
    }
  }

  /** A successful delete moves the sale's quantities back to the shelf. */
  lemma EliminarConserva(inv: Inventario, ventas: map<VentaId, VentaDatos>, id: VentaId)
    requires id in ventas && ProductosConocidos(inv, ventas[id].detalles)
    requires Eliminar(inv, ventas[id]).Success?
    ensures var r := Eliminar(inv, ventas[id]).value;
      forall p :: p in inv ==> r[p].stock + Comprometido(ventas - {id}, p) == inv[p].stock + Comprometido(ventas, p)
  {
    var r := Eliminar(inv, ventas[id]).value;
    forall p | p in inv ensures r[p].stock + Comprometido(ventas - {id}, p) == inv[p].stock + Comprometido(ventas, p) {
      ComprometidoSin(ventas, id, p);
    }
  }
}
