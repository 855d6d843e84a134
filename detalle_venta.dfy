/** The sale line entity (`DetalleVenta`). */
module DetalleVentaEntidad {
  import opened Comun

  /** The amount of a line: unit price times quantity, exact. */
  function Importe(precioUnitario: Centimos, cantidad: int): Centimos
  {
    precioUnitario * cantidad
  }

  /** A valid line's amount is positive and at least one unit's price. */
  lemma ImporteDeLineaValida(precioUnitario: Centimos, cantidad: int)
    requires precioUnitario > 0 && cantidad >= 1
    ensures Importe(precioUnitario, cantidad) >= precioUnitario > 0
  {
    assert Importe(precioUnitario, cantidad) == precioUnitario + precioUnitario * (cantidad - 1);
  }

  /** A complete line as a sale keeps it. The product is held by its key, never by a back pointer. */
  datatype Detalle = Detalle(productoId: ProductoId, cantidad: int, precioUnitario: Centimos, subtotal: Centimos)
  {
    /** The entity's bean constraints (`@Min(1)` on the quantity, a unit price above 0)
        together with the subtotal the recomputing setters maintain. */
    predicate Valido() {
      cantidad >= 1 && precioUnitario > 0 && subtotal == Importe(precioUnitario, cantidad)
    }
  }

  /** A valid line contributes a positive amount to its sale. */
  lemma SubtotalPositivo(d: Detalle)
    requires d.Valido()
    ensures d.subtotal >= d.precioUnitario > 0
  {
    ImporteDeLineaValida(d.precioUnitario, d.cantidad);
  }

  /** A line object; every field may be null until it is set. */
  class DetalleVenta {
    var productoId: Option<ProductoId>
    var cantidad: Option<int>
    var precioUnitario: Option<Centimos>
    var subtotal: Option<Centimos>

    /** Whenever both factors are present, the subtotal is their product. */
    ghost predicate SubtotalAlDia()
      reads this
    {
      cantidad.Some? && precioUnitario.Some? ==> subtotal == Some(Importe(precioUnitario.value, cantidad.value))
    }

    predicate Completo()
      reads this
    {
      productoId.Some? && cantidad.Some? && precioUnitario.Some? && subtotal.Some?
    }

    /** The line a sale stores once every field is set. */
    function Datos(): Detalle
      reads this
      requires Completo()
    {
      Detalle(productoId.value, cantidad.value, precioUnitario.value, subtotal.value)
    }

    /** `new DetalleVenta()`: nothing set yet. */
    constructor Vacio()
      ensures productoId == None && cantidad == None && precioUnitario == None && subtotal == None
      ensures SubtotalAlDia()
    {
      productoId, cantidad, precioUnitario, subtotal := None, None, None, None;
    }

    /** The four-argument constructor (the owning sale is not a field of the model):
        the subtotal is computed at once. */
    constructor (productoId: ProductoId, cantidad: int, precioUnitario: Centimos)
      ensures Completo() && SubtotalAlDia()
      ensures Datos() == Detalle(productoId, cantidad, precioUnitario, Importe(precioUnitario, cantidad))
    {
      this.productoId := Some(productoId);
      this.cantidad := Some(cantidad);
      this.precioUnitario := Some(precioUnitario);
      new;
      CalcularSubtotal();
    }

    /** `setCantidad`: stores the quantity and recomputes the subtotal. */
    method SetCantidad(c: Option<int>)
      modifies this`cantidad, this`subtotal
      ensures cantidad == c && SubtotalAlDia()
      ensures c.None? || precioUnitario.None? ==> subtotal == old(subtotal)
    {
      cantidad := c;
      CalcularSubtotal();
    }

    /** `setPrecioUnitario`: stores the unit price and recomputes the subtotal. */
    method SetPrecioUnitario(p: Option<Centimos>)
      modifies this`precioUnitario, this`subtotal
      ensures precioUnitario == p && SubtotalAlDia()
      ensures p.None? || cantidad.None? ==> subtotal == old(subtotal)
    {
      precioUnitario := p;
      CalcularSubtotal();
    }

    /** `calcularSubtotal`: leaves the subtotal alone while a factor is missing. */
    method CalcularSubtotal()
      modifies this`subtotal
      ensures SubtotalAlDia()
      ensures cantidad.None? || precioUnitario.None? ==> subtotal == old(subtotal)
    {
      if cantidad.Some? && precioUnitario.Some? {
        subtotal := Some(Importe(precioUnitario.value, cantidad.value));
      }
    }
  }
}
