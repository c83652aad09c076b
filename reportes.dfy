/**
 * Reports on orders and the suspension they cause:
 * `Orden.reportar` (PEMA/models.py:692-704), `Prestatario.reportes` and
 * `Prestatario.suspendido` (PEMA/models.py:79-94, 116-123).
 * The `Reporte` table is unique in (almacén, orden), so it is a map on that pair.
 */
module Reportes {
  import opened Wrappers
  import opened Entidades

  type TablaReportes = map<(Usuario, OrdenId), Reporte>

  /** The `IntegrityError` `get_or_create` raises when the pair exists with another description. */
  datatype ErrorReporte = ReporteDuplicado

  /**
   * `Reporte.objects.get_or_create(almacen, orden, descripcion)`: the new
   * table and whether a row was created. A new report is active (the field's
   * default).
   */
  function Reportar(reportes: TablaReportes, almacen: Usuario, orden: OrdenId, descripcion: string)
    : Result<(TablaReportes, bool), ErrorReporte>
  {
    var k := (almacen, orden);
    if k in reportes then
      if reportes[k].descripcion == descripcion then Ok((reportes, false)) else Err(ReporteDuplicado)
    else Ok((reportes[k := Reporte(Activo, descripcion)], true))
  }

  /** `Prestatario.ordenes()`: the orders `p` co-signs. */
  function OrdenesDe(ordenes: map<OrdenId, Orden>, p: Usuario): set<OrdenId> {
    set o | o in ordenes && p in ordenes[o].corresponsables
  }

  /** `Prestatario.reportes()`: the reports on those orders. */
  function ReportesDe(ordenes: map<OrdenId, Orden>, reportes: TablaReportes, p: Usuario): set<(Usuario, OrdenId)> {
    set k | k in reportes && k.1 in OrdenesDe(ordenes, p)
  }

  /** `Prestatario.suspendido()`: one of those reports is active. */
  predicate Suspendido(ordenes: map<OrdenId, Orden>, reportes: TablaReportes, p: Usuario) {
    exists k :: k in ReportesDe(ordenes, reportes, p) && reportes[k].estado == Activo
  }

  /** A first report on an order creates one active row and touches no other. */
  lemma ReportarNuevo(reportes: TablaReportes, almacen: Usuario, orden: OrdenId, descripcion: string)
    requires (almacen, orden) !in reportes
    ensures Reportar(reportes, almacen, orden, descripcion).Ok?
    ensures var (nueva, creado) := Reportar(reportes, almacen, orden, descripcion).value;
      creado && nueva.Keys == reportes.Keys + {(almacen, orden)}
      && nueva[(almacen, orden)] == Reporte(Activo, descripcion)
      && forall k :: k in reportes ==> nueva[k] == reportes[k]
  {
  }

  /**
   * Repeating `reportar` with the same arguments creates nothing
   * (PEMA/tests/models/test_orden.py:55-64).
   */
  lemma ReportarIdempotente(reportes: TablaReportes, almacen: Usuario, orden: OrdenId, descripcion: string)
    requires Reportar(reportes, almacen, orden, descripcion).Ok?
    ensures var nueva := Reportar(reportes, almacen, orden, descripcion).value.0;
      Reportar(nueva, almacen, orden, descripcion) == Ok((nueva, false))
  {
  }

  /** A second report on the pair with another description fails and creates nothing. */
  lemma ReportarOtraDescripcion(reportes: TablaReportes, almacen: Usuario, orden: OrdenId, d1: string, d2: string)
    requires (almacen, orden) !in reportes && d1 != d2
    ensures var nueva := Reportar(reportes, almacen, orden, d1).value.0;
      Reportar(nueva, almacen, orden, d2) == Err(ReporteDuplicado)
  {
  }

  /** Once an order is reported, every co-signer of that order is suspended. */
  lemma ReporteSuspende(ordenes: map<OrdenId, Orden>, reportes: TablaReportes,
                        almacen: Usuario, orden: OrdenId, descripcion: string, p: Usuario)
    requires orden in ordenes && p in ordenes[orden].corresponsables
    requires (almacen, orden) !in reportes
    ensures Suspendido(ordenes, Reportar(reportes, almacen, orden, descripcion).value.0, p)
  {
    var nueva := Reportar(reportes, almacen, orden, descripcion).value.0;
    assert (almacen, orden) in ReportesDe(ordenes, nueva, p);
  }

  /** Without an active report on an order `p` co-signs, `p` is not suspended. */
  lemma SinReporteActivoNoSuspendido(ordenes: map<OrdenId, Orden>, reportes: TablaReportes, p: Usuario)
    requires forall k :: k in reportes && k.1 in ordenes && p in ordenes[k.1].corresponsables ==> reportes[k].estado == Inactivo
    ensures !Suspendido(ordenes, reportes, p)
  {
  }

  /**
   * Suspension follows co-signing: `p` is suspended iff an active report
   * exists on an order `p` co-signs (whoever the order's borrower is).
   */
  lemma SuspendidoSii(ordenes: map<OrdenId, Orden>, reportes: TablaReportes, p: Usuario)
    ensures Suspendido(ordenes, reportes, p) <==>
      exists k :: k in reportes && k.1 in ordenes && p in ordenes[k.1].corresponsables && reportes[k].estado == Activo
  {
    if Suspendido(ordenes, reportes, p) {
      var k :| k in ReportesDe(ordenes, reportes, p) && reportes[k].estado == Activo;
      assert k.1 in OrdenesDe(ordenes, p);
    } else {
      forall k | k in reportes && k.1 in ordenes && p in ordenes[k.1].corresponsables
        ensures reportes[k].estado != Activo
      {
        assert k in ReportesDe(ordenes, reportes, p);
      }
    }
  }
}
