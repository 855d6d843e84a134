/** The sale aggregate (`Venta`): an ordered list of lines and the totals derived from them. */
module VentaEntidad {
  import opened Comun
  import opened DetalleVentaEntidad

  datatype EstadoVenta = Pendiente | Confirmada | Entregada | Cancelada

  datatype MetodoPago = Efectivo | Tarjeta | Transferencia | Yape | Plin

  /** The sum of the line subtotals, folded from zero. */
  function SumaSubtotales(ds: seq<Detalle>): Centimos
  {
    if ds == [] then 0 else SumaSubtotales(ds[..|ds| - 1]) + ds[|ds| - 1].subtotal
  }

  lemma {:induction false} SumaSubtotalesConcat(a: seq<Detalle>, b: seq<Detalle>)
    ensures SumaSubtotales(a + b) == SumaSubtotales(a) + SumaSubtotales(b)
  {
    if b != [] {
      assert (a + b)[..|a + b| - 1] == a + b[..|b| - 1];
      SumaSubtotalesConcat(a, b[..|b| - 1]);
    } else {
      assert a + b == a;
    }
  }

  /** Lines that all satisfy the entity constraints add up to a non-negative amount,
      and to a positive one as soon as there is a line. */
  lemma {:induction false} SumaSubtotalesDeLineasValidas(ds: seq<Detalle>)
    requires forall i :: 0 <= i < |ds| ==> ds[i].Valido()
    ensures SumaSubtotales(ds) >= 0
    ensures ds != [] ==> SumaSubtotales(ds) > 0
  {
    if ds != [] {
      SumaSubtotalesDeLineasValidas(ds[..|ds| - 1]);
      SubtotalPositivo(ds[|ds| - 1]);
    }
  }

  /** IGV, 18% of the subtotal, kept exact (no rounding). */
  function Igv(subtotal: Centimos): (r: DiezMilesimos)
    ensures r as real / 10000.0 == (subtotal as real / 100.0) * 0.18
  {
    subtotal * 18
  }

  /** The total, subtotal plus IGV, on the four-decimal scale of the IGV. */
  function Total(subtotal: Centimos): (r: DiezMilesimos)
    ensures r as real / 10000.0 == subtotal as real / 100.0 + Igv(subtotal) as real / 10000.0
  {
    subtotal * 100 + Igv(subtotal)
  }

  /** The position of the first occurrence of `d`. */
  function PrimeraPosicion(ds: seq<Detalle>, d: Detalle): (k: nat)
    requires d in ds
    ensures k < |ds| && ds[k] == d && d !in ds[..k]
  {
    if ds[0] == d then 0
    else
      var j := PrimeraPosicion(ds[1..], d);
      assert ds[..j + 1] == [ds[0]] + ds[1..][..j];
      j + 1
  }

  /** Removal from a list by equality: drops the first occurrence of `d`, if any, and keeps the rest in order. */
  function QuitarPrimero(ds: seq<Detalle>, d: Detalle): (r: seq<Detalle>)
    ensures d !in ds ==> r == ds
    ensures d in ds ==> |r| + 1 == |ds|
  {
    if ds == [] then []
    else if ds[0] == d then ds[1..]
    else
      assert d in ds ==> d in ds[1..];
      assert d !in ds ==> [ds[0]] + ds[1..] == ds;
      [ds[0]] + QuitarPrimero(ds[1..], d)
  }

  /** What is removed is exactly the first occurrence: the lines before it and after it stay,
      in order. */
  lemma {:induction false} QuitarPrimeroCorta(ds: seq<Detalle>, d: Detalle)
    requires d in ds
    ensures QuitarPrimero(ds, d) == ds[..PrimeraPosicion(ds, d)] + ds[PrimeraPosicion(ds, d) + 1..]
  {
    if ds[0] != d {
      assert d in ds[1..];
      QuitarPrimeroCorta(ds[1..], d);
      var j := PrimeraPosicion(ds[1..], d);
      assert ds[..j + 1] == [ds[0]] + ds[1..][..j];
      assert ds[j + 2..] == ds[1..][j + 1..];
    }
  }

  /** The stored fields of a sale. */
  datatype VentaDatos = VentaDatos(
    clienteId: Option<ClienteId>,
    fechaVenta: Instante,
    subtotal: Centimos,
    igv: DiezMilesimos,
    total: DiezMilesimos,
    estado: EstadoVenta,
    metodoPago: Option<MetodoPago>,
    observaciones: Option<string>,
    detalles: seq<Detalle>)
  {
    /** The totals are those of the current lines. */
    predicate TotalesConsistentes() {
      && subtotal == SumaSubtotales(detalles)
      && igv == Igv(subtotal)
      && total == Total(subtotal)
    }

    /** Customer, date, state, payment method and note agree with `otra`. */
    predicate MismaCabeceraQue(otra: VentaDatos) {
      && clienteId == otra.clienteId
      && fechaVenta == otra.fechaVenta
      && estado == otra.estado
      && metodoPago == otra.metodoPago
      && observaciones == otra.observaciones
    }

    /** `calcularTotales`. */
    function CalcularTotales(): (r: VentaDatos)
      ensures r.TotalesConsistentes() && r.detalles == detalles && r.MismaCabeceraQue(this)
      ensures detalles == [] ==> r.subtotal == 0 && r.igv == 0 && r.total == 0
    {
      var s := SumaSubtotales(detalles);
      this.(subtotal := s, igv := Igv(s), total := Total(s))
    }

    /** `agregarDetalle`: appends the line, then recomputes the totals. */
    function AgregarDetalle(d: Detalle): (r: VentaDatos)
      ensures r.detalles == detalles + [d] && r.TotalesConsistentes() && r.MismaCabeceraQue(this)
      ensures TotalesConsistentes() ==> r.subtotal == subtotal + d.subtotal
    {
      assert (detalles + [d])[..|detalles + [d]| - 1] == detalles;
      this.(detalles := detalles + [d]).CalcularTotales()
    }

    /** `removerDetalle`: drops the first occurrence of the line, then recomputes the totals. */
    function RemoverDetalle(d: Detalle): (r: VentaDatos)
      ensures r.detalles == QuitarPrimero(detalles, d) && r.TotalesConsistentes() && r.MismaCabeceraQue(this)
    {
      this.(detalles := QuitarPrimero(detalles, d)).CalcularTotales()
    }
  }

  /** A sale as `new Venta()` leaves it: PENDIENTE, no customer, no lines, zero totals. */
  function NuevaVenta(ahora: Instante): (v: VentaDatos)
    ensures v.estado == Pendiente && v.detalles == [] && v.fechaVenta == ahora
    ensures v.subtotal == 0 && v.igv == 0 && v.total == 0 && v.TotalesConsistentes()
    ensures v.clienteId == None && v.metodoPago == None && v.observaciones == None
  {
    VentaDatos(None, ahora, 0, 0, 0, Pendiente, None, None, [])
  }

  /** Recomputing totals twice is recomputing them once. */
  lemma CalcularTotalesIdempotente(v: VentaDatos)
    ensures v.CalcularTotales().CalcularTotales() == v.CalcularTotales()
  {
  }

  /** A sale whose totals already match its lines is left exactly as it was. */
  lemma CalcularTotalesPuntoFijo(v: VentaDatos)
    requires v.TotalesConsistentes()
    ensures v.CalcularTotales() == v
  {
  }

  /** Removing a line that is present takes exactly its subtotal off the sale; the lines
      before and after its first occurrence keep their order. */
  lemma RemoverDetalleResta(v: VentaDatos, d: Detalle)
    requires v.TotalesConsistentes() && d in v.detalles
    ensures var r := v.RemoverDetalle(d);
      && |r.detalles| + 1 == |v.detalles|
      && r.subtotal == v.subtotal - d.subtotal
  {
    QuitarPrimeroCorta(v.detalles, d);
    var k := PrimeraPosicion(v.detalles, d);
    var antes, despues := v.detalles[..k], v.detalles[k + 1..];
    assert v.detalles == antes + [d] + despues;
    SumaSubtotalesConcat(antes + [d], despues);
    SumaSubtotalesConcat(antes, [d]);
    SumaSubtotalesConcat(antes, despues);
    assert SumaSubtotales([d]) == d.subtotal by {
      assert [d][..0] == [];
    }
  }

  /** A sale entity whose lines and totals change in place. */
  class Venta {
    var clienteId: Option<ClienteId>
    var fechaVenta: Instante
    var subtotal: Centimos
    var igv: DiezMilesimos
    var total: DiezMilesimos
    var estado: EstadoVenta
    var metodoPago: Option<MetodoPago>
    var observaciones: Option<string>
    var detalles: seq<Detalle>

    /** The record this object holds. */
    function Datos(): VentaDatos
      reads this
    {
      VentaDatos(clienteId, fechaVenta, subtotal, igv, total, estado, metodoPago, observaciones, detalles)
    }

    /** `new Venta()`: the field defaults, stamped with the current time. */
    constructor (ahora: Instante)
      ensures Datos() == NuevaVenta(ahora)
    {
      clienteId, fechaVenta := None, ahora;
      subtotal, igv, total := 0, 0, 0;
      estado := Pendiente;
      metodoPago, observaciones := None, None;
      detalles := [];
    }

    /** `new Venta(cliente, metodoPago)`. */
    constructor ConCliente(clienteId: ClienteId, metodoPago: MetodoPago, ahora: Instante)
      ensures Datos() == NuevaVenta(ahora).(clienteId := Some(clienteId), metodoPago := Some(metodoPago))
    {
      this.clienteId, fechaVenta := Some(clienteId), ahora;
      subtotal, igv, total := 0, 0, 0;
      estado := Pendiente;
      this.metodoPago, observaciones := Some(metodoPago), None;
      detalles := [];
    }

    /** `calcularTotales`. */
    method CalcularTotales()
      modifies this`subtotal, this`igv, this`total
      ensures Datos() == old(Datos()).CalcularTotales()
    {
      subtotal := SumaSubtotales(detalles);
      igv := Igv(subtotal);
      total := Total(subtotal);
    }

    /** `agregarDetalle`. */
    method AgregarDetalle(detalle: DetalleVenta)
      requires detalle.Completo()
      modifies this`detalles, this`subtotal, this`igv, this`total
      ensures Datos() == old(Datos()).AgregarDetalle(detalle.Datos())
    {
      detalles := detalles + [detalle.Datos()];
      CalcularTotales();
    }

    /** `removerDetalle`. */
    method RemoverDetalle(detalle: DetalleVenta)
      requires detalle.Completo()
      modifies this`detalles, this`subtotal, this`igv, this`total
      ensures Datos() == old(Datos()).RemoverDetalle(detalle.Datos())
    {
      detalles := QuitarPrimero(detalles, detalle.Datos());
      CalcularTotales();
    }
  }
}
