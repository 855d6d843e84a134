/** Worked examples of the lifecycle on small stores. */
module Escenarios {
  import opened Comun
  import opened ProductoEntidad
  import opened DetalleVentaEntidad
  import opened VentaEntidad
  import opened Existencias
  import opened Transiciones
  import opened VentaServicio

  const CEVICHE: ProductoId := 1
  const CHICHA: ProductoId := 2
  const CLIENTE: ClienteId := 7

  function Carta(): (inv: Inventario)
    ensures CEVICHE in inv && CHICHA in inv
  {
    map[CEVICHE := ProductoDatos("Ceviche", None, 2500, 10, None, true),
        CHICHA := ProductoDatos("Chicha", None, 800, 10, None, true)]
  }

  function Clientes(): map<ClienteId, Cliente>
  {
    map[CLIENTE := Cliente(true)]
  }

  /** A one-line request runs exactly its line. */
  lemma ProcesarUnaLinea(inv: Inventario, l: LineaSolicitada)
    ensures ProcesarDetalles(inv, [l]) ==
      match ProcesarDetalle(inv, l)
      case Failure(e) => Failure(e)
      case Success((nuevo, d)) => Success((nuevo, [d]))
  {
    assert [l][..0] == [];
    assert ProcesarDetalles(inv, []) == Success((inv, []));
    if ProcesarDetalle(inv, l).Success? {
      var d := ProcesarDetalle(inv, l).value.1;
      assert [] + [d] == [d];
    }
  }

  lemma SumaDeUnaLinea(d: Detalle)
    ensures SumaSubtotales([d]) == d.subtotal
  {
    assert [d][..0] == [];
  }

  /** Two units at 25.00 from a stock of 10: subtotal 50.00, IGV 9.00, total 59.00, stock 8. */
  lemma EscenarioCrear()
    ensures var r := Crear(Clientes(), Carta(), Some(CLIENTE), Some(Efectivo), None, [LineaSolicitada(Some(CEVICHE), 2)], 0);
      && r.Success?
      && r.value.1.subtotal == 5000 && r.value.1.igv == 90000 && r.value.1.total == 590000
      && r.value.1.detalles == [Detalle(CEVICHE, 2, 2500, 5000)]
      && r.value.0[CEVICHE].stock == 8 && r.value.0[CHICHA] == Carta()[CHICHA]
  {
    var l := LineaSolicitada(Some(CEVICHE), 2);
    var d := Detalle(CEVICHE, 2, 2500, 5000);
    ProcesarUnaLinea(Carta(), l);
    assert ProcesarDetalle(Carta(), l).Success? && ProcesarDetalle(Carta(), l).value.1 == d;
    SumaDeUnaLinea(d);
  }

  /** Crediting a one-line sale gives back that line's quantity. */
  lemma AcreditarUnaLinea(inv: Inventario, d: Detalle)
    requires d.productoId in inv
    ensures Acreditar(inv, [d]) == inv[d.productoId := inv[d.productoId].Aumentar(d.cantidad)]
  {
    assert [d][..0] == [];
  }

  /** The sale left by the create example, replaced by five units: 2 are credited back, then 5
      debited, so the stock of 8 ends at 5 and the subtotal is 125.00. */
  lemma EscenarioActualizar(fecha: Instante)
    ensures var inv := Carta()[CEVICHE := Carta()[CEVICHE].(stock := 8)];
      var v := VentaDatos(Some(CLIENTE), fecha, 5000, 90000, 590000, Pendiente, Some(Efectivo), None,
                          [Detalle(CEVICHE, 2, 2500, 5000)]);
      && ProductosConocidos(inv, v.detalles)
      && var r := Actualizar(inv, v, Some(Efectivo), None, [LineaSolicitada(Some(CEVICHE), 5)]);
         && r.Success? && r.value.0[CEVICHE].stock == 5 && r.value.0[CHICHA].stock == 10
         && r.value.1.detalles == [Detalle(CEVICHE, 5, 2500, 12500)] && r.value.1.subtotal == 12500
  {
    var inv := Carta()[CEVICHE := Carta()[CEVICHE].(stock := 8)];
    AcreditarUnaLinea(inv, Detalle(CEVICHE, 2, 2500, 5000));
    var acreditado := Acreditar(inv, [Detalle(CEVICHE, 2, 2500, 5000)]);
    assert acreditado[CEVICHE].stock == 10;
    var l := LineaSolicitada(Some(CEVICHE), 5);
    var d := Detalle(CEVICHE, 5, 2500, 12500);
    ProcesarUnaLinea(acreditado, l);
    assert ProcesarDetalle(acreditado, l).Success? && ProcesarDetalle(acreditado, l).value.1 == d;
    SumaDeUnaLinea(d);
  }

  /** Cancelling a confirmed sale of one ceviche and three chichas returns 1 and 3 units; the
      cancelled sale then refuses every further change. */
  lemma EscenarioCancelar(inv: Inventario, fecha: Instante)
    requires CEVICHE in inv && CHICHA in inv
    ensures var v := VentaDatos(Some(CLIENTE), fecha, 4900, 88200, 578200, Confirmada, Some(Yape), None,
                                [Detalle(CEVICHE, 1, 2500, 2500), Detalle(CHICHA, 3, 800, 2400)]);
      && ProductosConocidos(inv, v.detalles)
      && var r := CambiarEstado(inv, v, Cancelada);
         && r.Success? && r.value.1.estado == Cancelada
         && r.value.0[CEVICHE].stock == inv[CEVICHE].stock + 1
         && r.value.0[CHICHA].stock == inv[CHICHA].stock + 3
         && ProductosConocidos(r.value.0, r.value.1.detalles)
         && forall e :: CambiarEstado(r.value.0, r.value.1, e) == Failure(TransicionNoValida)
  {
    var ds := [Detalle(CEVICHE, 1, 2500, 2500), Detalle(CHICHA, 3, 800, 2400)];
    assert ds[..1] == [ds[0]] && ds[..1][..0] == [];
    assert CantidadDe(ds[..1], CEVICHE) == 1 && CantidadDe(ds[..1], CHICHA) == 0;
    assert CantidadDe(ds, CEVICHE) == 1 && CantidadDe(ds, CHICHA) == 3;
    var v := VentaDatos(Some(CLIENTE), fecha, 4900, 88200, 578200, Confirmada, Some(Yape), None, ds);
    var r := CambiarEstado(inv, v, Cancelada);
    forall e ensures CambiarEstado(r.value.0, r.value.1, e) == Failure(TransicionNoValida) {
      TransicionAvanza(Cancelada, e);
    }
  }

  /** The second line of this request asks for 20 chichas out of 10. */
  lemma EscenarioSinStock()
    ensures Crear(Clientes(), Carta(), Some(CLIENTE), Some(Efectivo), None,
                  [LineaSolicitada(Some(CEVICHE), 2), LineaSolicitada(Some(CHICHA), 20)], 0)
            == Failure(StockInsuficiente("Chicha"))
  {
    var ls := [LineaSolicitada(Some(CEVICHE), 2), LineaSolicitada(Some(CHICHA), 20)];
    assert ls[..1] == [ls[0]];
    ProcesarUnaLinea(Carta(), ls[0]);
    var inv1 := ProcesarDetalle(Carta(), ls[0]).value.0;
    assert inv1[CHICHA] == Carta()[CHICHA];
    assert ProcesarDetalle(inv1, ls[1]) == Failure(StockInsuficiente("Chicha"));
  }

  /** Through the service: the failed create stores nothing and the first line's debit is not
      kept. */
  method EscenarioStockInsuficiente()
  {
    var servicio := new VentaService(Carta(), Clientes());
    var solicitud := [LineaSolicitada(Some(CEVICHE), 2), LineaSolicitada(Some(CHICHA), 20)];
    EscenarioSinStock();
    var r := servicio.CrearVenta(Some(CLIENTE), Some(Efectivo), None, solicitud, 0);
    assert r == Failure(StockInsuficiente("Chicha"));
    assert servicio.productos == Carta() && servicio.ventas == map[];
  }
}
