/**
 * The booking-conflict rule of `Articulo.disponible`
 * (PEMA/models.py:483-506): which units are free in a window
 * `[inicio, final]`, given every unit and every order.
 */
module Disponibilidad {
  import opened Entidades

  /** The five overlap clauses of the order scan, in the source's order. */
  predicate Conflicto(o: Orden, inicio: Instante, final: Instante) {
    || o.inicio == inicio
    || o.final == final
    || (o.inicio < inicio && o.final > inicio)
    || (o.inicio < final && o.final > final)
    || (o.inicio > inicio && o.final < final)
  }

  /** The approved orders that conflict with the window. */
  function Bloqueantes(ordenes: map<OrdenId, Orden>, inicio: Instante, final: Instante): set<OrdenId> {
    set o | o in ordenes && ordenes[o].estado == Aprobada && Conflicto(ordenes[o], inicio, final)
  }

  /** Every unit held by one of the orders `ids`. */
  function UnidadesDe(ordenes: map<OrdenId, Orden>, ids: set<OrdenId>): set<UnidadId> {
    set o, u | o in ids && o in ordenes && u in ordenes[o].unidades :: u
  }

  /** The control numbers of the units `us`. */
  function Controles(unidades: map<UnidadId, Unidad>, us: set<UnidadId>): set<string> {
    set u | u in us && u in unidades :: unidades[u].numControl
  }

  /**
   * What `disponible` returns: every unit of the table, of any article, whose
   * control number is not that of a unit held by a blocking order.
   */
  function UnidadesLibres(unidades: map<UnidadId, Unidad>, ordenes: map<OrdenId, Orden>,
                          inicio: Instante, final: Instante): set<UnidadId>
  {
    var bloqueados := Controles(unidades, UnidadesDe(ordenes, Bloqueantes(ordenes, inicio, final)));
    set u | u in unidades && unidades[u].numControl !in bloqueados
  }

  /** A unit is free iff no approved conflicting order holds a unit with its control number. */
  lemma LibreSii(unidades: map<UnidadId, Unidad>, ordenes: map<OrdenId, Orden>,
                 inicio: Instante, final: Instante, u: UnidadId)
    ensures u in UnidadesLibres(unidades, ordenes, inicio, final) <==>
      u in unidades &&
      forall o, v ::
        (o in ordenes && ordenes[o].estado == Aprobada && Conflicto(ordenes[o], inicio, final)
         && v in ordenes[o].unidades && v in unidades)
        ==> unidades[v].numControl != unidades[u].numControl
  {
    var bloq := Bloqueantes(ordenes, inicio, final);
    if u in unidades && u !in UnidadesLibres(unidades, ordenes, inicio, final) {
      var c := unidades[u].numControl;
      assert c in Controles(unidades, UnidadesDe(ordenes, bloq));
      var v :| v in UnidadesDe(ordenes, bloq) && v in unidades && unidades[v].numControl == c;
      var o :| o in bloq && o in ordenes && v in ordenes[o].unidades;
    }
  }

  /**
   * For proper intervals (start before end) the five clauses say exactly
   * that the two open intervals overlap.
   */
  lemma ConflictoSiiTraslape(o: Orden, inicio: Instante, final: Instante)
    requires o.inicio < o.final && inicio < final
    ensures Conflicto(o, inicio, final) <==> o.inicio < final && inicio < o.final
  {
  }

  /** An order that ends exactly when the request starts does not conflict with it. */
  lemma TerminaAlInicioSinConflicto(o: Orden, inicio: Instante, final: Instante)
    requires o.inicio < o.final == inicio < final
    ensures !Conflicto(o, inicio, final)
  {
  }

  /**
   * Only approved orders block: a unit whose control number occurs only in
   * orders in any other state is free, whatever the window.
   */
  lemma SoloAprobadasBloquean(unidades: map<UnidadId, Unidad>, ordenes: map<OrdenId, Orden>,
                              inicio: Instante, final: Instante, u: UnidadId)
    requires u in unidades
    requires forall o, v ::
               (o in ordenes && v in ordenes[o].unidades && v in unidades
                && unidades[v].numControl == unidades[u].numControl)
               ==> ordenes[o].estado != Aprobada
    ensures u in UnidadesLibres(unidades, ordenes, inicio, final)
  {
    LibreSii(unidades, ordenes, inicio, final, u);
  }

  /** Changing or adding an order that is not approved leaves the free units as they were. */
  lemma OrdenNoAprobadaIndiferente(unidades: map<UnidadId, Unidad>, ordenes: map<OrdenId, Orden>,
                                   inicio: Instante, final: Instante, k: OrdenId, o: Orden)
    requires k in ordenes ==> ordenes[k].estado != Aprobada
    requires o.estado != Aprobada
    ensures UnidadesLibres(unidades, ordenes[k := o], inicio, final) == UnidadesLibres(unidades, ordenes, inicio, final)
  {
    assert Bloqueantes(ordenes[k := o], inicio, final) == Bloqueantes(ordenes, inicio, final);
    assert UnidadesDe(ordenes[k := o], Bloqueantes(ordenes, inicio, final))
        == UnidadesDe(ordenes, Bloqueantes(ordenes, inicio, final));
  }

  /** Approving one more order can only take units away from the free set. */
  lemma NuevaOrdenSoloReduce(unidades: map<UnidadId, Unidad>, ordenes: map<OrdenId, Orden>,
                             inicio: Instante, final: Instante, k: OrdenId, o: Orden)
    requires k !in ordenes
    ensures UnidadesLibres(unidades, ordenes[k := o], inicio, final) <= UnidadesLibres(unidades, ordenes, inicio, final)
  {
    var antes := Bloqueantes(ordenes, inicio, final);
    var despues := Bloqueantes(ordenes[k := o], inicio, final);
    assert antes <= despues;
    assert UnidadesDe(ordenes, antes) <= UnidadesDe(ordenes[k := o], despues);
  }

  /**
   * Units of the article `articulo` that no approved conflicting order holds:
   * the method's name and its docstring describe the units of `self`, and
   * models.py:493 makes approved orders the only ones that block. The tests of
   * PEMA/tests/models/test_articulo.py also count pending orders as blocking,
   * which that line contradicts; `FixtureQs1` to `FixtureQs6` record where
   * the two meet and where they part.
   */
  function UnidadesLibresDeArticulo(unidades: map<UnidadId, Unidad>, ordenes: map<OrdenId, Orden>,
                                    articulo: ArticuloId, inicio: Instante, final: Instante): (r: set<UnidadId>)
    ensures forall u :: u in r <==>
      u in unidades && unidades[u].articulo == articulo &&
      forall o :: o in ordenes && ordenes[o].estado == Aprobada && Conflicto(ordenes[o], inicio, final)
        ==> u !in ordenes[o].unidades
  {
    var ocupadas := UnidadesDe(ordenes, Bloqueantes(ordenes, inicio, final));
    set u | u in unidades && unidades[u].articulo == articulo && u !in ocupadas
  }

  /**
   * Where a unit's control number is unique in the table, the corrected rule
   * keeps exactly the article's units that the rule as written keeps.
   */
  lemma LibresDeArticuloCoincide(unidades: map<UnidadId, Unidad>, ordenes: map<OrdenId, Orden>,
                                 articulo: ArticuloId, inicio: Instante, final: Instante)
    requires forall u, v :: u in unidades && v in unidades && unidades[u].numControl == unidades[v].numControl ==> u == v
    requires forall o :: o in ordenes ==> ordenes[o].unidades <= unidades.Keys
    ensures UnidadesLibresDeArticulo(unidades, ordenes, articulo, inicio, final)
         == set u | u in UnidadesLibres(unidades, ordenes, inicio, final) && unidades[u].articulo == articulo
  {
    var libres := UnidadesLibres(unidades, ordenes, inicio, final);
    var corregidas := UnidadesLibresDeArticulo(unidades, ordenes, articulo, inicio, final);
    forall u | u in unidades && unidades[u].articulo == articulo
      ensures u in corregidas <==> u in libres
    {
      LibreSii(unidades, ordenes, inicio, final, u);
    }
  }

  /** The rule as written returns units of other articles too. */
  lemma DisponibleIncluyeOtrosArticulos()
    ensures var unidades := map[1 := Unidad(1, "1", "1", Activo), 7 := Unidad(2, "7", "7", Activo)];
            7 in UnidadesLibres(unidades, map[], 0, 5) && unidades[7].articulo != 1
  {
    var unidades := map[1 := Unidad(1, "1", "1", Activo), 7 := Unidad(2, "7", "7", Activo)];
    LibreSii(unidades, map[], 0, 5, 7);
  }

  /**
   * The rule as written blocks by control number, which is unique only per
   * article: booking unit 1 of article 1 also blocks unit 2 of article 2,
   * which has the same control number and is in no order.
   */
  lemma BloqueoCruzaArticulos()
    ensures var unidades := map[1 := Unidad(1, "7", "a", Activo), 2 := Unidad(2, "7", "b", Activo)];
            var ordenes := map[0 := Orden("p", "m", Ordinaria, Aprobada, 0, 5, {"p"}, {1})];
            2 !in UnidadesLibres(unidades, ordenes, 0, 5)
            && 2 in UnidadesLibresDeArticulo(unidades, ordenes, 2, 0, 5)
  {
    var unidades := map[1 := Unidad(1, "7", "a", Activo), 2 := Unidad(2, "7", "b", Activo)];
    var ordenes := map[0 := Orden("p", "m", Ordinaria, Aprobada, 0, 5, {"p"}, {1})];
    LibreSii(unidades, ordenes, 0, 5, 2);
    assert Conflicto(ordenes[0], 0, 5);
    assert 1 in ordenes[0].unidades && unidades[1].numControl == unidades[2].numControl;
  }

  /**
   * The fixture of `test_disponible` (PEMA/tests/models/test_articulo.py:64-141):
   * units 1-4 of article 1, units 5-8 of article 2, and six orders, each
   * holding one unit, with hours counted from noon.
   */
  const FixtureUnidades: map<UnidadId, Unidad> :=
    map u: UnidadId | 1 <= u <= 8 :: Unidad(if u <= 4 then 1 else 2, [(u + '0' as int) as char], [(u + '0' as int) as char], Activo)

  /** State, start and end of orders 1 to 6 of the fixture, in that order. */
  const FixtureEstados: seq<EstadoOrden> := [PendienteAp, PendienteCr, Aprobada, PendienteAp, PendienteCr, Aprobada]
  const FixtureInicios: seq<Instante> := [0, -1, 3, 4, 1, -1]
  const FixtureFinales: seq<Instante> := [2, 2, 5, 6, 4, 6]

  const FixtureOrdenes: map<OrdenId, Orden> :=
    map k: OrdenId | 1 <= k <= 6 ::
      Orden("sin_rol", "Cinematografia", Ordinaria, FixtureEstados[k - 1], FixtureInicios[k - 1], FixtureFinales[k - 1], {}, {k})

  /** Free units of an article, computed from the orders that block the window. */
  lemma LibresDeArticuloPorBloqueo(unidades: map<UnidadId, Unidad>, ordenes: map<OrdenId, Orden>,
                                   articulo: ArticuloId, inicio: Instante, final: Instante,
                                   delArticulo: set<UnidadId>, bloqueantes: set<OrdenId>, ocupadas: set<UnidadId>)
    requires forall u :: u in unidades && unidades[u].articulo == articulo <==> u in delArticulo
    requires Bloqueantes(ordenes, inicio, final) == bloqueantes
    requires UnidadesDe(ordenes, bloqueantes) == ocupadas
    ensures UnidadesLibresDeArticulo(unidades, ordenes, articulo, inicio, final) == delArticulo - ocupadas
  {
  }

  /** Units 1-4 of the fixture belong to article 1 and units 5-8 to article 2. */
  lemma FixtureArticulos()
    ensures forall u :: u in FixtureUnidades && FixtureUnidades[u].articulo == 1 <==> u in {1, 2, 3, 4}
    ensures forall u :: u in FixtureUnidades && FixtureUnidades[u].articulo == 2 <==> u in {5, 6, 7, 8}
  {
  }

  /** Only orders 3 and 6 of the fixture are approved, and each holds its own unit. */
  lemma FixtureAprobadas()
    ensures forall k :: k in FixtureOrdenes && FixtureOrdenes[k].estado == Aprobada ==> k == 3 || k == 6
    ensures FixtureOrdenes[3].estado == Aprobada && FixtureOrdenes[6].estado == Aprobada
    ensures FixtureOrdenes[3].inicio == 3 && FixtureOrdenes[3].final == 5
    ensures FixtureOrdenes[6].inicio == -1 && FixtureOrdenes[6].final == 6
    ensures UnidadesDe(FixtureOrdenes, {3, 6}) == {3, 6}
    ensures UnidadesDe(FixtureOrdenes, {6}) == {6}
  {
    forall k | k in FixtureOrdenes && FixtureOrdenes[k].estado == Aprobada
      ensures k == 3 || k == 6
    {
      if k == 1 {} else if k == 2 {} else if k == 4 {} else if k == 5 {}
    }
    assert 3 in FixtureOrdenes[3].unidades && 6 in FixtureOrdenes[6].unidades;
  }

  /** A window both approved orders of the fixture conflict with is blocked by both. */
  lemma FixtureBloqueanAmbas(inicio: Instante, final: Instante)
    requires Conflicto(FixtureOrdenes[3], inicio, final) && Conflicto(FixtureOrdenes[6], inicio, final)
    ensures Bloqueantes(FixtureOrdenes, inicio, final) == {3, 6}
    ensures UnidadesDe(FixtureOrdenes, {3, 6}) == {3, 6}
  {
    FixtureAprobadas();
  }

  /** A window only order 6 of the fixture conflicts with is blocked by it alone. */
  lemma FixtureBloqueaSeis(inicio: Instante, final: Instante)
    requires !Conflicto(FixtureOrdenes[3], inicio, final) && Conflicto(FixtureOrdenes[6], inicio, final)
    ensures Bloqueantes(FixtureOrdenes, inicio, final) == {6}
    ensures UnidadesDe(FixtureOrdenes, {6}) == {6}
  {
    FixtureAprobadas();
  }

  /** On the fixture, the approved-only rule meets the assertion on `qs4` (article 2 over [-1, 1]). */
  lemma FixtureQs4()
    ensures UnidadesLibresDeArticulo(FixtureUnidades, FixtureOrdenes, 2, -1, 1) == {5, 7, 8}
  {
    assert {5, 6, 7, 8} - {6} == {5, 7, 8};
    FixtureBloqueaSeis(-1, 1);
    FixtureArticulos();
    LibresDeArticuloPorBloqueo(FixtureUnidades, FixtureOrdenes, 2, -1, 1, {5, 6, 7, 8}, {6}, {6});
  }

  /** On the fixture, the approved-only rule meets the assertion on `qs5` (article 1 over [2, 4]). */
  lemma FixtureQs5()
    ensures UnidadesLibresDeArticulo(FixtureUnidades, FixtureOrdenes, 1, 2, 4) == {1, 2, 4}
  {
    assert {1, 2, 3, 4} - {3, 6} == {1, 2, 4};
    FixtureBloqueanAmbas(2, 4);
    FixtureArticulos();
    LibresDeArticuloPorBloqueo(FixtureUnidades, FixtureOrdenes, 1, 2, 4, {1, 2, 3, 4}, {3, 6}, {3, 6});
  }

  /**
   * On the fixture, the approved-only rule leaves units 1, 2 and 4 free for
   * article 1 over [0, 5], where the assertion on `qs1` expects no unit:
   * pending orders 1, 2 and 4 hold them and do not block.
   */
  lemma FixtureQs1()
    ensures UnidadesLibresDeArticulo(FixtureUnidades, FixtureOrdenes, 1, 0, 5) == {1, 2, 4}
  {
    assert {1, 2, 3, 4} - {3, 6} == {1, 2, 4};
    FixtureBloqueanAmbas(0, 5);
    FixtureArticulos();
    LibresDeArticuloPorBloqueo(FixtureUnidades, FixtureOrdenes, 1, 0, 5, {1, 2, 3, 4}, {3, 6}, {3, 6});
  }

  /**
   * On the fixture, the approved-only rule leaves unit 5 free for article 2
   * over [0, 5], where the assertion on `qs2` expects only units 7 and 8:
   * pending order 5 holds unit 5 and does not block.
   */
  lemma FixtureQs2()
    ensures UnidadesLibresDeArticulo(FixtureUnidades, FixtureOrdenes, 2, 0, 5) == {5, 7, 8}
  {
    assert {5, 6, 7, 8} - {3, 6} == {5, 7, 8};
    FixtureBloqueanAmbas(0, 5);
    FixtureArticulos();
    LibresDeArticuloPorBloqueo(FixtureUnidades, FixtureOrdenes, 2, 0, 5, {5, 6, 7, 8}, {3, 6}, {3, 6});
  }

  /**
   * On the fixture, the approved-only rule leaves all four units of article 1
   * free over [-1, 2], where the assertion on `qs3` expects only units 3 and 4:
   * pending orders 1 and 2 hold units 1 and 2 and do not block.
   */
  lemma FixtureQs3()
    ensures UnidadesLibresDeArticulo(FixtureUnidades, FixtureOrdenes, 1, -1, 2) == {1, 2, 3, 4}
  {
    assert {1, 2, 3, 4} - {6} == {1, 2, 3, 4};
    FixtureBloqueaSeis(-1, 2);
    FixtureArticulos();
    LibresDeArticuloPorBloqueo(FixtureUnidades, FixtureOrdenes, 1, -1, 2, {1, 2, 3, 4}, {6}, {6});
  }

  /**
   * On the fixture, the approved-only rule leaves unit 5 free for article 2
   * over [1, 4], where the assertion on `qs6` expects only units 7 and 8:
   * pending order 5 holds unit 5 and does not block.
   */
  lemma FixtureQs6()
    ensures UnidadesLibresDeArticulo(FixtureUnidades, FixtureOrdenes, 2, 1, 4) == {5, 7, 8}
  {
    assert {5, 6, 7, 8} - {3, 6} == {5, 7, 8};
    FixtureBloqueanAmbas(1, 4);
    FixtureArticulos();
    LibresDeArticuloPorBloqueo(FixtureUnidades, FixtureOrdenes, 2, 1, 4, {5, 6, 7, 8}, {3, 6}, {3, 6});
  }
}
