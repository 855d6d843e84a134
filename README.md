# Sale lifecycle of the cevichería point-of-sale backend, in Dafny

This project models the core of a restaurant point-of-sale backend. A customer's sale (`Venta`)
is an ordered list of lines (`DetalleVenta`). Each line debits the stock of one product
(`Producto`). The service (`VentaService`) creates, updates, changes the state of and deletes
sales against the product and customer stores.

The model has ten modules:

- `Comun` (`comun.dfy`): keys, money scales, `Option`/`Result` and the exceptions of the lifecycle.
- `ProductoEntidad` (`producto.dfy`): the product record and the `Producto` entity class. Its
  stock is debited under a guard (`reducirStock`) and credited (`aumentarStock`) in place.
- `DetalleVentaEntidad` (`detalle_venta.dfy`): the line record and the `DetalleVenta` entity
  class. Its setters recompute the subtotal.
- `VentaEntidad` (`venta.dfy`): the sale record with its totals, and the `Venta` entity class
  (`calcularTotales`, `agregarDetalle`, `removerDetalle`, constructors and field defaults).
- `Transiciones` (`transiciones.dfy`): the state machine `esTransicionValida`.
- `Existencias` (`existencias.dfy`): the per-line worker `procesarDetalleVenta`, its
  sequential run over a request, and the loop that credits a sale's lines back.
- `VentaServicio` (`venta_service.dfy`):
  - the four lifecycle operations as pure functions over the stores;
  - the `VentaService` class, whose stores are map fields and whose methods loop like the source;
  - the store invariant: stock never negative, prices positive, and stored sales well formed.
- `Conservacion` (`conservacion.dfy`): for each product, stock plus what the live sales hold of
  it is the same before and after every successful operation.
- `Escenarios` (`escenarios.dfy`): worked examples on small stores. One is two units at 25.00,
  which gives subtotal 50.00, IGV 9.00, total 59.00 and stock 10 → 8.
- `Hallazgos` (`hallazgos.dfy`): the sale that the database gives back after an update, with
  the old line rows still attached, and what that does to the stock balance.

Money is counted in integers:

- prices and subtotals in cents, because they are `BigDecimal`s of scale 2;
- IGV and total in ten-thousandths, because the scale-2 subtotal times the scale-2 factor 0.18
  has scale 4 and the code does not round it (Venta.java:162).

The contracts of `Igv` and `Total` state the amounts in `real` against the literal 0.18.

Each lifecycle operation is all-or-nothing, because of the class-level `@Transactional`
(VentaService.java:22). The service methods work on local copies of the stores and assign the
fields only after the whole operation has succeeded. On any failure they return the error and
leave every store as it was.

Three facts about the code that the model follows:

- **No rounding.** `calcularTotales` multiplies the subtotal by 0.18 and does not round the
  product (Venta.java:162). The model keeps the exact scale-4 amount.
- **No partial commit.** The class-level `@Transactional` (VentaService.java:22) rolls back
  the debits of earlier lines when a later line of a create request fails. The model's create
  commits nothing on failure (`EscenarioStockInsuficiente` shows this on the class).
- **Missing customer.** A create request with no customer reference, or one whose reference
  has no id, fails with `ClienteObligatorio` before any lookup (VentaService.java:37-39).

## Model

| member | source | states |
|---|---|---|
| ProductoEntidad.ProductoDatos.Reducir | src/main/java/com/cevicheria/sistemaventas/entity/Producto.java:126-132 | the debit succeeds iff `cantidad <= stock`; on success the stock drops by exactly `cantidad`, a non-negative stock stays non-negative, and name, description, price, unit and active flag are untouched |
| ProductoEntidad.ProductoDatos.Aumentar | src/main/java/com/cevicheria/sistemaventas/entity/Producto.java:134-136 | the stock rises by exactly `cantidad` and nothing else changes; a non-negative credit keeps a non-negative stock non-negative |
| ProductoEntidad.ReducirLuegoAumentar | src/main/java/com/cevicheria/sistemaventas/entity/Producto.java:126-136 | a successful debit followed by a credit of the same quantity gives back the original product |
| ProductoEntidad.Producto.constructor | src/main/java/com/cevicheria/sistemaventas/entity/Producto.java:53-59 | the five given fields are stored and `activo` keeps its default, true |
| ProductoEntidad.Producto.ReducirStock | src/main/java/com/cevicheria/sistemaventas/entity/Producto.java:126-132 | in place: reports success iff the stock suffices; on success the object holds `Reducir`'s record, otherwise it is unchanged |
| ProductoEntidad.Producto.AumentarStock | src/main/java/com/cevicheria/sistemaventas/entity/Producto.java:134-136 | in place: the object holds `Aumentar`'s record, only the stock field is written |
| DetalleVentaEntidad.ImporteDeLineaValida | src/main/java/com/cevicheria/sistemaventas/entity/DetalleVenta.java:30-38 | with quantity ≥ 1 and unit price > 0, the line amount is positive and at least one unit's price |
| DetalleVentaEntidad.SubtotalPositivo | src/main/java/com/cevicheria/sistemaventas/entity/DetalleVenta.java:30-41 | a line satisfying the entity constraints has a subtotal > 0 |
| DetalleVentaEntidad.DetalleVenta.Vacio | src/main/java/com/cevicheria/sistemaventas/entity/DetalleVenta.java:44 | the no-argument constructor leaves every field null |
| DetalleVentaEntidad.DetalleVenta.constructor | src/main/java/com/cevicheria/sistemaventas/entity/DetalleVenta.java:46-52 | the built line is complete and its subtotal already equals unit price × quantity |
| DetalleVentaEntidad.DetalleVenta.SetCantidad | src/main/java/com/cevicheria/sistemaventas/entity/DetalleVenta.java:83-86 | stores the quantity and re-establishes subtotal = price × quantity; with a factor null the subtotal is left as it was |
| DetalleVentaEntidad.DetalleVenta.SetPrecioUnitario | src/main/java/com/cevicheria/sistemaventas/entity/DetalleVenta.java:92-95 | stores the price and re-establishes subtotal = price × quantity; with a factor null the subtotal is left as it was |
| DetalleVentaEntidad.DetalleVenta.CalcularSubtotal | src/main/java/com/cevicheria/sistemaventas/entity/DetalleVenta.java:106-110 | whenever quantity and price are both present the subtotal is their product; otherwise it is unchanged |
| VentaEntidad.SumaSubtotalesConcat | src/main/java/com/cevicheria/sistemaventas/entity/Venta.java:157-159 | the folded sum of line subtotals is additive over concatenation |
| VentaEntidad.SumaSubtotalesDeLineasValidas | src/main/java/com/cevicheria/sistemaventas/entity/Venta.java:157-159 | lines that satisfy the entity constraints sum to ≥ 0, and to > 0 when there is a line |
| VentaEntidad.Igv | src/main/java/com/cevicheria/sistemaventas/entity/Venta.java:161-162 | IGV, read as a decimal, is exactly the subtotal times 0.18, unrounded |
| VentaEntidad.Total | src/main/java/com/cevicheria/sistemaventas/entity/Venta.java:163 | the total, read as a decimal, is exactly subtotal + IGV |
| VentaEntidad.QuitarPrimero | src/main/java/com/cevicheria/sistemaventas/entity/Venta.java:152 | removing a line that is absent changes nothing; removing a present one shortens the list by one |
| VentaEntidad.QuitarPrimeroCorta | src/main/java/com/cevicheria/sistemaventas/entity/Venta.java:152 | exactly the first occurrence goes; the lines before and after it stay in order |
| VentaEntidad.VentaDatos.CalcularTotales | src/main/java/com/cevicheria/sistemaventas/entity/Venta.java:156-164 | afterwards subtotal = Σ line subtotals, IGV = 18% of it, total = subtotal + IGV (all zero with no lines); lines and header untouched |
| VentaEntidad.VentaDatos.AgregarDetalle | src/main/java/com/cevicheria/sistemaventas/entity/Venta.java:145-149 | the line is appended after the earlier ones, totals are consistent, and a consistent subtotal grows by the line's subtotal |
| VentaEntidad.VentaDatos.RemoverDetalle | src/main/java/com/cevicheria/sistemaventas/entity/Venta.java:151-154 | the lines are the old ones with the first occurrence removed, and totals are consistent |
| VentaEntidad.NuevaVenta | src/main/java/com/cevicheria/sistemaventas/entity/Venta.java:30-55 | a new sale is PENDIENTE with zero subtotal, IGV and total, no lines, and no customer, payment method or note |
| VentaEntidad.CalcularTotalesIdempotente | src/main/java/com/cevicheria/sistemaventas/entity/Venta.java:156-164 | recomputing totals twice is the same as once |
| VentaEntidad.CalcularTotalesPuntoFijo | src/main/java/com/cevicheria/sistemaventas/entity/Venta.java:156-164 | a sale whose totals already match its lines is left exactly as it was |
| VentaEntidad.RemoverDetalleResta | src/main/java/com/cevicheria/sistemaventas/entity/Venta.java:151-154 | removing a present line takes exactly its subtotal off a consistent sale and one line off the list |
| VentaEntidad.Venta.constructor | src/main/java/com/cevicheria/sistemaventas/entity/Venta.java:53-55 | the object holds `NuevaVenta` stamped with the given time |
| VentaEntidad.Venta.ConCliente | src/main/java/com/cevicheria/sistemaventas/entity/Venta.java:57-61 | as the default constructor, with the customer and payment method set |
| VentaEntidad.Venta.CalcularTotales | src/main/java/com/cevicheria/sistemaventas/entity/Venta.java:156-164 | in place: the object holds `VentaDatos.CalcularTotales` of its old record |
| VentaEntidad.Venta.AgregarDetalle | src/main/java/com/cevicheria/sistemaventas/entity/Venta.java:145-149 | in place: the object holds `VentaDatos.AgregarDetalle` of its old record |
| VentaEntidad.Venta.RemoverDetalle | src/main/java/com/cevicheria/sistemaventas/entity/Venta.java:151-154 | in place: the object holds `VentaDatos.RemoverDetalle` of its old record |
| Transiciones.EsTransicionValida | src/main/java/com/cevicheria/sistemaventas/service/VentaService.java:207-220 | a change is allowed iff it is one of the four pairs PENDIENTE→CONFIRMADA, PENDIENTE→CANCELADA, CONFIRMADA→ENTREGADA, CONFIRMADA→CANCELADA |
| Transiciones.TransicionAvanza | src/main/java/com/cevicheria/sistemaventas/service/VentaService.java:207-220 | ENTREGADA and CANCELADA accept nothing, nothing leads back to PENDIENTE or to the same state, and every allowed change moves strictly forward |
| Transiciones.RecorridoAcotado | src/main/java/com/cevicheria/sistemaventas/service/VentaService.java:207-220 | any run of allowed changes moves one stage per step and has at most two changes, none from a terminal state |
| Existencias.ProcesarDetalle | src/main/java/com/cevicheria/sistemaventas/service/VentaService.java:179-205 | fails for a missing, unknown or inactive product and when stock < quantity (naming the product); on success only that product changes, its stock drops by exactly the quantity (staying ≥ 0), and the line carries the product's current price and subtotal price × quantity |
| Existencias.ProcesarDetalles | src/main/java/com/cevicheria/sistemaventas/service/VentaService.java:53-57 | a successful run keeps the product keys and yields one line per requested line |
| Existencias.Acreditar | src/main/java/com/cevicheria/sistemaventas/service/VentaService.java:149-153 | crediting keeps the product keys |
| Existencias.AcreditarEfecto | src/main/java/com/cevicheria/sistemaventas/service/VentaService.java:149-153 | crediting a sale's lines raises each product's stock by exactly the quantity those lines hold of it and changes nothing else |
| Existencias.AcreditarConservaNoNegativo | src/main/java/com/cevicheria/sistemaventas/service/VentaService.java:149-153 | crediting lines of quantity ≥ 1 keeps every stock non-negative |
| Existencias.ProcesarDetallesStock | src/main/java/com/cevicheria/sistemaventas/service/VentaService.java:53-57 | a successful run debits each product by the total quantity the request asks of it, in request order including repeats, keeps every other field, and keeps stock ≥ 0; its lines hold of each product what was asked |
| Existencias.ProcesarDetallesLineas | src/main/java/com/cevicheria/sistemaventas/service/VentaService.java:53-57 | a successful run yields, in request order, one line per requested line with that product, that quantity, the product's price and the matching subtotal |
| Existencias.ProcesarDetallesEfecto | src/main/java/com/cevicheria/sistemaventas/service/VentaService.java:53-57 | the two lemmas above together, with the product keys kept |
| Existencias.ProcesarDetallesPrefijo | src/main/java/com/cevicheria/sistemaventas/service/VentaService.java:53-57 | once a prefix of the request fails, the whole run fails with that same error |
| Existencias.ProcesarDetallesExito | src/main/java/com/cevicheria/sistemaventas/service/VentaService.java:193-194 | checking and debiting line by line succeeds iff every line names a known active product and, per product, the total asked fits its stock |
| Existencias.ProcesarLuegoAcreditar | src/main/java/com/cevicheria/sistemaventas/service/VentaService.java:149-153 | crediting the lines a run produced gives back exactly the product store the run started from |
| VentaServicio.Crear | src/main/java/com/cevicheria/sistemaventas/service/VentaService.java:35-60 | fails with the customer errors in the source's order; on success the sale is PENDIENTE, stamped with the given time, with consistent totals, the request's customer, payment method and note, and the product keys kept |
| VentaServicio.Actualizar | src/main/java/com/cevicheria/sistemaventas/service/VentaService.java:79-111 | a sale that is not PENDIENTE is rejected; on success the sale stays PENDIENTE with its customer and date, takes the new payment method and note, and has consistent totals |
| VentaServicio.CambiarEstado | src/main/java/com/cevicheria/sistemaventas/service/VentaService.java:115-136 | succeeds iff the change is in the transition table, else fails with the transition error; on success the stored state is the requested one, cancelling credits every line's quantity back and any other change leaves all stock as it was |
| VentaServicio.Eliminar | src/main/java/com/cevicheria/sistemaventas/service/VentaService.java:140-155 | succeeds iff the sale is PENDIENTE; on success each product gets back exactly what the sale's lines held of it |
| VentaServicio.CrearEfecto | src/main/java/com/cevicheria/sistemaventas/service/VentaService.java:35-60 | create succeeds iff the customer is given, known and active and the demand is feasible; then each stock drops by the quantity asked of it (staying ≥ 0) and the sale's lines are the requested ones, in order, at current prices |
| VentaServicio.ActualizarExito | src/main/java/com/cevicheria/sistemaventas/service/VentaService.java:84-108 | update succeeds iff the sale is PENDIENTE and the new demand fits the stock once the old lines are credited back |
| VentaServicio.ActualizarEfecto | src/main/java/com/cevicheria/sistemaventas/service/VentaService.java:88-110 | after an update each stock is old stock + old quantities − new quantities of that product, and the new lines replace the old ones in request order at current prices |
| VentaServicio.CrearLuegoEliminar | src/main/java/com/cevicheria/sistemaventas/service/VentaService.java:35-61 | deleting a sale right after creating it restores every product's stock |
| VentaServicio.CrearLuegoCancelar | src/main/java/com/cevicheria/sistemaventas/service/VentaService.java:127-133 | cancelling a sale right after creating it restores every product's stock |
| VentaServicio.CrearConservaValidez | src/main/java/com/cevicheria/sistemaventas/service/VentaService.java:35-60 | a successful create keeps stock ≥ 0 and prices > 0, and files a well-formed sale under a fresh key |
| VentaServicio.ActualizarConservaValidez | src/main/java/com/cevicheria/sistemaventas/service/VentaService.java:79-111 | a successful update keeps the store invariant |
| VentaServicio.CambiarEstadoConservaValidez | src/main/java/com/cevicheria/sistemaventas/service/VentaService.java:115-136 | a successful state change keeps the store invariant |
| VentaServicio.EliminarConservaValidez | src/main/java/com/cevicheria/sistemaventas/service/VentaService.java:140-155 | a successful delete keeps the store invariant |
| VentaServicio.RestaurarStock | src/main/java/com/cevicheria/sistemaventas/service/VentaService.java:149-153 | the credit loop computes `Acreditar` of the store and the lines |
| VentaServicio.ProcesarSolicitud | src/main/java/com/cevicheria/sistemaventas/service/VentaService.java:53-57 | the create loop computes `ProcesarDetalles`, stopping at the first failure |
| VentaServicio.ProcesarYAgregar | src/main/java/com/cevicheria/sistemaventas/service/VentaService.java:102-108 | the update loop fails exactly when `ProcesarDetalles` fails; otherwise it yields that run's store and the sale with that run's lines appended, header untouched |
| VentaServicio.VentaService.constructor | src/main/java/com/cevicheria/sistemaventas/service/VentaService.java:25-32 | a service over a valid product store and no sales is valid |
| VentaServicio.VentaService.CrearVenta | src/main/java/com/cevicheria/sistemaventas/service/VentaService.java:35-60 | in place: on failure `Crear`'s error with nothing stored; on success the new store and the sale under the next key; the store invariant is kept |
| VentaServicio.VentaService.ActualizarVenta | src/main/java/com/cevicheria/sistemaventas/service/VentaService.java:79-111 | in place: an unknown key is reported; otherwise the outcome and new stores are `Actualizar`'s, with nothing stored on failure; the store invariant is kept |
| VentaServicio.VentaService.CambiarEstadoVenta | src/main/java/com/cevicheria/sistemaventas/service/VentaService.java:115-136 | in place: an unknown key is reported; otherwise the outcome and new stores are `CambiarEstado`'s; the store invariant is kept |
| VentaServicio.VentaService.EliminarVenta | src/main/java/com/cevicheria/sistemaventas/service/VentaService.java:140-155 | in place: an unknown key is reported; otherwise on success the stock is `Eliminar`'s and the sale is gone; the store invariant is kept |
| Conservacion.CrearConserva | src/main/java/com/cevicheria/sistemaventas/service/VentaService.java:53-57 | for every product, stock + quantity held by live sales is the same after a successful create |
| Conservacion.ActualizarConserva | src/main/java/com/cevicheria/sistemaventas/service/VentaService.java:88-108 | the same balance is unchanged by a successful update |
| Conservacion.CambiarEstadoConserva | src/main/java/com/cevicheria/sistemaventas/service/VentaService.java:126-135 | the same balance is unchanged by a successful state change, cancellation included |
| Conservacion.EliminarConserva | src/main/java/com/cevicheria/sistemaventas/service/VentaService.java:148-155 | the same balance is unchanged by a successful delete |
| Escenarios.EscenarioCrear | src/main/java/com/cevicheria/sistemaventas/service/VentaService.java:35-60 | two units at 25.00 from stock 10: subtotal 50.00, IGV 9.00, total 59.00, stock 8, the other product untouched |
| Escenarios.EscenarioActualizar | src/main/java/com/cevicheria/sistemaventas/service/VentaService.java:79-111 | replacing that line by five units leaves stock 5 and subtotal 125.00 |
| Escenarios.EscenarioCancelar | src/main/java/com/cevicheria/sistemaventas/service/VentaService.java:115-136 | cancelling a confirmed sale of 1 + 3 units gives back 1 and 3 units, and the cancelled sale refuses every further change |
| Escenarios.EscenarioSinStock | src/main/java/com/cevicheria/sistemaventas/service/VentaService.java:193-194 | a request whose second line overdraws its product fails with that product's name |
| Hallazgos.ActualizarRecargado | src/main/java/com/cevicheria/sistemaventas/service/VentaService.java:101-111 | as written, the sale read back after an update holds the old lines' quantities on top of the new ones, and its stored totals disagree with its lines whenever the old lines are worth anything; it succeeds exactly when `Actualizar` does and commits the same stock |
| Hallazgos.ActualizarRecargadoDescuadra | src/main/java/com/cevicheria/sistemaventas/entity/Venta.java:49 | for every successful update, shelf stock plus what the reloaded sale holds exceeds the balance before the update by the old lines' quantities |
| Hallazgos.ActualizarRecargadoSobreacredita | src/main/java/com/cevicheria/sistemaventas/service/VentaService.java:128-132 | replacing 2 ceviches by 5 and then cancelling leaves 10 on the shelf in the corrected model and 12 as written |

## Left out

- Controllers, repositories, sample-data seeding and the front-end script are not part of this
  model. The repositories are replaced by maps from key to record, so paging, date queries and
  search are left out.
- The read-only `obtener*` finders of the service are left out: each is a single repository
  pass-through.
- `LocalDateTime.now()` is a parameter (`Instante`). The model never inspects it.
- Concurrency and row locking are left out: the model is sequential.
- The `@Transactional` proxy is modelled only by its effect, all-or-nothing per operation.
- `Cliente.java` is not part of this model. A customer is reduced to its `activo` flag.
- ProductoEntidad.ProductoDatos.Reducir, ProductoEntidad.ProductoDatos.Aumentar: stock is an
  unbounded integer. The 32-bit wrap-around of `Integer` on a credit beyond 2^31 − 1 is not
  modelled.
- VentaEntidad.Igv, VentaEntidad.Total: the model keeps the in-memory value that
  `calcularTotales` computes. The rounding to two decimals when the value is written to the
  scale-2 columns, and the `precision = 10` column limit, belong to the database and are not
  modelled.
- Line quantities ≥ 1 are preconditions of the service, not checked failures. The source
  enforces `@Min(1)` through bean validation when the entity is persisted, outside the service
  code.
- A null quantity on a requested line is left out: the source would fail with a null-pointer
  exception in the stock check.
- A null line list in an update request is left out: the source treats it as an empty list,
  and the model's request is always a sequence.
- A create request is assumed to carry no id. The source never clears the id it is given
  (VentaService.java:35-60), so a request with the id of a stored sale would make
  `ventaRepository.save` (VentaService.java:60) merge into that sale. The sale would go back to
  PENDIENTE and get the new lines, and its old lines would not be credited back. That merge is
  not modelled: `VentaService.CrearVenta` always files the sale under a fresh key.
- Request fields the service overwrites are not inputs of the model: a state, a date, and
  prices or subtotals on request lines.
- A null line list in a create request is left out: the model's request is always a sequence.
  The source skips the loop (VentaService.java:53) and then fails with a null-pointer exception
  in `calcularTotales` (VentaService.java:59, Venta.java:157), which rolls the transaction back.
- A line holds its product's key, not a reference. The back pointer `DetalleVenta.venta` and
  `setSubtotal`, which no code in the core calls, are left out.
- The no-argument `Producto` constructor is left out: it leaves name and price null.
- VentaEntidad.QuitarPrimero: `List.remove` compares line objects by identity, since
  `DetalleVenta` does not override `equals`. The model removes the first line equal as a value.
  This is the same sequence whenever the removed object is the only one with those field
  values.
- Persistence of line rows is modelled only for update, in `Hallazgos` (see "## Findings").
  The other operations take a sale's line list as it is stored.

## Findings

| source | as written | input that shows it | evidently intended | confidence | as-written member | corrected member |
|---|---|---|---|---|---|---|
| src/main/java/com/cevicheria/sistemaventas/service/VentaService.java:102 | `actualizarVenta` clears `detalles`, the inverse side of the relation (`mappedBy = "venta"`, no orphan removal, Venta.java:49). The foreign key is on the line row (DetalleVenta.java:20-23), so no row is deleted, and the next load returns the old lines with the new ones. A later cancel (VentaService.java:128-132), delete (:149-153) or update (:89-95) credits both sets | a PENDIENTE sale of 2 ceviches, stock 8 of 10, updated to 5 ceviches and then cancelled: the stock ends at 12 | the update replaces the lines, and cancelling gives back the original 10 | high for the mapping, not executed | Hallazgos.ActualizarRecargado, Hallazgos.ActualizarRecargadoDescuadra, Hallazgos.ActualizarRecargadoSobreacredita | VentaServicio.Actualizar, Conservacion.ActualizarConserva |
