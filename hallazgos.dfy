/** The sale as the database keeps it after `actualizarVenta`. The line collection of `Venta` is
    the inverse side of its relation: the foreign key `venta_id` lives on the line row, and the
    collection has no orphan removal. Clearing the collection in memory therefore deletes no
    row, and the old lines stay attached to the sale beside the new ones. */
module Hallazgos {
  import opened Comun
  import opened ProductoEntidad
  import opened DetalleVentaEntidad
  import opened VentaEntidad
  import opened Existencias
  import opened Transiciones
  import opened VentaServicio
  import opened Conservacion
  import opened Escenarios

  /** `actualizarVenta` as written, seen through the next load of the sale. The committed stock
      is `Actualizar`'s. The sale read back holds the old line rows and the new ones (the model
      puts the old ones first), while its stored totals are those of the new lines alone. */
  function ActualizarRecargado(inv: Inventario, v: VentaDatos, metodoPago: Option<MetodoPago>,
                               observaciones: Option<string>, solicitud: seq<LineaSolicitada>): (r: Result<(Inventario, VentaDatos), Error>)
    requires ProductosConocidos(inv, v.detalles)
    ensures r.Success? <==> Actualizar(inv, v, metodoPago, observaciones, solicitud).Success?
    ensures r.Success? ==>
      var w := Actualizar(inv, v, metodoPago, observaciones, solicitud).value.1;
      && r.value.0 == Actualizar(inv, v, metodoPago, observaciones, solicitud).value.0
      && (forall p :: Reservado(r.value.1, p) == CantidadDe(v.detalles, p) + Reservado(w, p))
      && (SumaSubtotales(v.detalles) != 0 ==> !r.value.1.TotalesConsistentes())
  {
    match Actualizar(inv, v, metodoPago, observaciones, solicitud)
    case Failure(e) => Failure(e)
    case Success((nuevo, w)) =>
      CantidadDeConcat(v.detalles, w.detalles);
      SumaSubtotalesConcat(v.detalles, w.detalles);
      Success((nuevo, w.(detalles := v.detalles + w.detalles)))
  }

  /** For every successful update, shelf stock plus what the reloaded sale holds grows by the
      quantities of the old lines: the balance `ActualizarConserva` proves of `Actualizar` does
      not hold for the sale the database gives back. */
  lemma ActualizarRecargadoDescuadra(inv: Inventario, v: VentaDatos, metodoPago: Option<MetodoPago>,
                                     observaciones: Option<string>, solicitud: seq<LineaSolicitada>)
    requires ProductosConocidos(inv, v.detalles)
    requires ActualizarRecargado(inv, v, metodoPago, observaciones, solicitud).Success?
    ensures var r := ActualizarRecargado(inv, v, metodoPago, observaciones, solicitud).value;
      forall p :: p in inv ==>
        r.0[p].stock + Reservado(r.1, p) == inv[p].stock + Reservado(v, p) + CantidadDe(v.detalles, p)
  {
    ActualizarEfecto(inv, v, metodoPago, observaciones, solicitud);
    ProcesarDetallesStock(Acreditar(inv, v.detalles), solicitud);
  }

  lemma CantidadDeUnaLinea(d: Detalle)
    ensures forall p :: CantidadDe([d], p) == if d.productoId == p then d.cantidad else 0
  {
    assert [d][..0] == [];
  }

  /** The update example, then a cancellation. The model's update leaves the sale holding the 5
      new ceviches, and cancelling gives back the shelf of 10. Reloaded as written, the sale also
      holds the 2 old ones, and cancelling it credits 7 onto a shelf of 5: 12 ceviches, 2 more
      than ever existed. */
  lemma ActualizarRecargadoSobreacredita(fecha: Instante)
    ensures var inv := Carta()[CEVICHE := Carta()[CEVICHE].(stock := 8)];
      var v := VentaDatos(Some(CLIENTE), fecha, 5000, 90000, 590000, Pendiente, Some(Efectivo), None,
                          [Detalle(CEVICHE, 2, 2500, 5000)]);
      var solicitud := [LineaSolicitada(Some(CEVICHE), 5)];
      && ProductosConocidos(inv, v.detalles)
      && var corregido := Actualizar(inv, v, Some(Efectivo), None, solicitud);
         var recargado := ActualizarRecargado(inv, v, Some(Efectivo), None, solicitud);
         && corregido.Success? && recargado.Success?
         && ProductosConocidos(corregido.value.0, corregido.value.1.detalles)
         && ProductosConocidos(recargado.value.0, recargado.value.1.detalles)
         && CambiarEstado(corregido.value.0, corregido.value.1, Cancelada).value.0[CEVICHE].stock == 10
         && CambiarEstado(recargado.value.0, recargado.value.1, Cancelada).value.0[CEVICHE].stock == 12
  {
    EscenarioActualizar(fecha);
    CantidadDeUnaLinea(Detalle(CEVICHE, 2, 2500, 5000));
    CantidadDeUnaLinea(Detalle(CEVICHE, 5, 2500, 12500));
    CantidadDeConcat([Detalle(CEVICHE, 2, 2500, 5000)], [Detalle(CEVICHE, 5, 2500, 12500)]);
  }
}
