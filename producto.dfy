/** The product entity and its stock counter (`Producto`). */
module ProductoEntidad {
  import opened Comun

  /** The persisted fields of a product. `stock` is a plain integer: the entity itself
      does not forbid a negative value, the guarded debit is what keeps it non-negative. */
  datatype ProductoDatos = ProductoDatos(
    nombre: string,
    descripcion: Option<string>,
    precio: Centimos,
    stock: int,
    unidadMedida: Option<string>,
    activo: bool)
  {
    /** Everything but the stock counter agrees with `otro`. */
    predicate MismaFichaQue(otro: ProductoDatos) {
      && nombre == otro.nombre
      && descripcion == otro.descripcion
      && precio == otro.precio
      && unidadMedida == otro.unidadMedida
      && activo == otro.activo
    }

    /** `reducirStock`: debits `cantidad` when enough stock is left; `None` stands for
        the exception for insufficient stock. */
    function Reducir(cantidad: int): (r: Option<ProductoDatos>)
      ensures r.Some? <==> cantidad <= stock
      ensures r.Some? ==> r.value.stock + cantidad == stock && r.value.MismaFichaQue(this)
      ensures r.Some? && stock >= 0 ==> r.value.stock >= 0
    {
      if stock >= cantidad then Some(this.(stock := stock - cantidad)) else None
    }

    /** `aumentarStock`: an unguarded credit. */
    function Aumentar(cantidad: int): (r: ProductoDatos)
      ensures r.stock - cantidad == stock && r.MismaFichaQue(this)
      ensures stock >= 0 && cantidad >= 0 ==> r.stock >= 0
    {
      this.(stock := stock + cantidad)
    }
  }

  /** A debit followed by a credit of the same quantity gives back the original record. */
  lemma ReducirLuegoAumentar(p: ProductoDatos, cantidad: int)
    requires p.Reducir(cantidad).Some?
    ensures p.Reducir(cantidad).value.Aumentar(cantidad) == p
  {
  }

  /** A managed product whose stock is changed in place. */
  class Producto {
    var nombre: string
    var descripcion: Option<string>
    var precio: Centimos
    var stock: int
    var unidadMedida: Option<string>
    var activo: bool

    /** The record this object holds. */
    function Datos(): ProductoDatos
      reads this
    {
      ProductoDatos(nombre, descripcion, precio, stock, unidadMedida, activo)
    }

    /** The five-argument constructor; `activo` keeps its field default, true. */
    constructor (nombre: string, descripcion: Option<string>, precio: Centimos, stock: int,
                 unidadMedida: Option<string>)
      ensures Datos() == ProductoDatos(nombre, descripcion, precio, stock, unidadMedida, true)
    {
      this.nombre := nombre;
      this.descripcion := descripcion;
      this.precio := precio;
      this.stock := stock;
      this.unidadMedida := unidadMedida;
      this.activo := true;
    }

    /** `reducirStock`: `ok` is false where the source throws; then nothing changed. */
    method ReducirStock(cantidad: int) returns (ok: bool)
      modifies this`stock
      ensures ok <==> old(Datos()).Reducir(cantidad).Some?
      ensures Datos() == if ok then old(Datos()).Reducir(cantidad).value else old(Datos())
    {
      if stock >= cantidad {
        stock := stock - cantidad;
        ok := true;
      } else {
        ok := false;
      }
    }

    /** `aumentarStock`. */
    method AumentarStock(cantidad: int)
      modifies this`stock
      ensures Datos() == old(Datos()).Aumentar(cantidad)
    {
      stock := stock + cantidad;
    }
  }
}
