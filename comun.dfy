/** Value types shared by every part of the sale model. */
module Comun {

  /** Keys the stores assign to their records (`Long` identity columns). */
  type ProductoId = int
  type ClienteId = int
  type VentaId = int

  /** A timestamp taken from the clock (`LocalDateTime.now()`); the model never looks inside it. */
  type Instante = int

  /** An amount with two decimals (a `BigDecimal` of scale 2), counted in cents. */
  type Centimos = int

  /** An amount with four decimals, counted in ten-thousandths: multiplying a scale-2
      amount by the scale-2 factor 0.18 yields scale 4, and the code does not round it. */
  type DiezMilesimos = int

  /** A Java reference that may be null. */
  datatype Option<+T> = None | Some(value: T)

  /** The outcome of an operation that may throw. */
  datatype Result<+T, +E> = Success(value: T) | Failure(error: E)

  /** The exceptions the sale lifecycle throws, one constructor per distinct message.
      The first eight are argument errors, the last three state errors. */
  datatype Error =
    | ClienteObligatorio                // no customer reference in the request
    | ClienteNoEncontrado               // the customer key is not in the store
    | ClienteInactivo                   // the customer is flagged inactive
    | ProductoObligatorio               // a line without a product reference
    | ProductoNoEncontrado              // the product key is not in the store
    | ProductoInactivo                  // the product is flagged inactive
    | StockInsuficiente(nombre: string) // not enough stock; the message names the product
    | VentaNoEncontrada                 // the sale key is not in the store
    | VentaNoModificable                // only PENDIENTE sales may be updated
    | VentaNoEliminable                 // only PENDIENTE sales may be deleted
    | TransicionNoValida                // the state change is not in the table
}
