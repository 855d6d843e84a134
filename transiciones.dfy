/** The state machine of a sale (`esTransicionValida`). */
module Transiciones {
  import opened VentaEntidad

  /** The allowed changes, as a table of (from, to) pairs. */
  const TRANSICIONES: set<(EstadoVenta, EstadoVenta)> :=
    {(Pendiente, Confirmada), (Pendiente, Cancelada), (Confirmada, Entregada), (Confirmada, Cancelada)}

  /** `esTransicionValida`: the switch over the current state. */
  function EsTransicionValida(actual: EstadoVenta, nuevo: EstadoVenta): (r: bool)
    ensures r <==> (actual, nuevo) in TRANSICIONES
  {
    match actual
    case Pendiente => nuevo == Confirmada || nuevo == Cancelada
    case Confirmada => nuevo == Entregada || nuevo == Cancelada
    case Entregada => false
    case Cancelada => false
  }

  /** How far along its life a sale is. */
  function Etapa(e: EstadoVenta): nat
  {
    match e
    case Pendiente => 0
    case Confirmada => 1
    case Entregada => 2
    case Cancelada => 2
  }

  /** ENTREGADA and CANCELADA are terminal, nothing leads back to PENDIENTE, no state goes
      to itself, and every allowed change moves a sale strictly forward. */
  lemma TransicionAvanza(actual: EstadoVenta, nuevo: EstadoVenta)
    ensures actual == Entregada || actual == Cancelada ==> !EsTransicionValida(actual, nuevo)
    ensures !EsTransicionValida(actual, Pendiente) && !EsTransicionValida(actual, actual)
    ensures EsTransicionValida(actual, nuevo) ==> Etapa(actual) < Etapa(nuevo)
  {
  }

  /** A run of successive allowed state changes. */
  predicate Recorrido(es: seq<EstadoVenta>) {
    forall i :: 0 <= i < |es| - 1 ==> EsTransicionValida(es[i], es[i + 1])
  }

  /** Any run of allowed changes is short: from PENDIENTE at most two changes succeed in a row,
      and a run that starts at a terminal state has no change at all. */
  lemma {:induction false} RecorridoAcotado(es: seq<EstadoVenta>)
    requires es != [] && Recorrido(es)
    ensures Etapa(es[|es| - 1]) >= Etapa(es[0]) + |es| - 1
    ensures |es| + Etapa(es[0]) <= 3
  {
    if |es| > 1 {
      assert Recorrido(es[1..]) by {
        forall i | 0 <= i < |es[1..]| - 1 ensures EsTransicionValida(es[1..][i], es[1..][i + 1]) {
          assert es[1..][i] == es[i + 1] && es[1..][i + 1] == es[i + 2];
        }
      }
      RecorridoAcotado(es[1..]);
      TransicionAvanza(es[0], es[1]);
    }
  }
}
