/**
 * The ORM of PEMA/models.py as in-memory tables: one class whose fields are
 * the tables, keyed as the models' primary keys and `unique_together`
 * constraints key them, and whose methods are the model methods that
 * change them. `add` on a relation has set semantics; `get_or_create` is
 * lookup-or-insert; `create` on an existing key is an `IntegrityError`.
 */
module BaseDatos {
  import opened Wrappers
  import opened Entidades
  import Disponibilidad
  import CarritoTabla
  import Reportes

  /** The `IntegrityError`s the operations below can raise. */
  datatype ErrorIntegridad = MateriaDuplicada | UsuarioDuplicado

  /** `AutorizacionOrden` rows requesting `autorizadores` to authorize `orden`, as `solicitar_autorizacion` creates them. */
  function Solicitudes(orden: OrdenId, tipo: TipoOrden, autorizadores: set<Usuario>)
    : (m: map<(OrdenId, Usuario), AutorizacionOrden>)
    ensures forall a :: a in autorizadores ==> (orden, a) in m && m[(orden, a)] == AutorizacionOrden(Pendiente, tipo)
    ensures forall k :: k in m ==> k.0 == orden && k.1 in autorizadores
  {
    map a | a in autorizadores :: (orden, a) := AutorizacionOrden(Pendiente, tipo)
  }

  lemma SolicitudesAnadir(orden: OrdenId, tipo: TipoOrden, hechos: set<Usuario>, a: Usuario,
                          previas: map<(OrdenId, Usuario), AutorizacionOrden>)
    ensures (previas + Solicitudes(orden, tipo, hechos))[(orden, a) := AutorizacionOrden(Pendiente, tipo)]
         == previas + Solicitudes(orden, tipo, hechos + {a})
  {
    var izq := (previas + Solicitudes(orden, tipo, hechos))[(orden, a) := AutorizacionOrden(Pendiente, tipo)];
    var der := previas + Solicitudes(orden, tipo, hechos + {a});
    assert izq.Keys == der.Keys;
    forall k | k in izq ensures izq[k] == der[k] {
    }
  }

  /** Every unit in any of the given sets (the `unidadesConflicto` list of `disponible`). */
  function Aplanar(grupos: seq<set<UnidadId>>): set<UnidadId> {
    set i, u | 0 <= i < |grupos| && u in grupos[i] :: u
  }

  lemma AplanarAnadir(grupos: seq<set<UnidadId>>, g: set<UnidadId>)
    ensures Aplanar(grupos + [g]) == Aplanar(grupos) + g
  {
    var n := grupos + [g];
    forall u | u in Aplanar(grupos) ensures u in Aplanar(n) {
      var i :| 0 <= i < |grupos| && u in grupos[i];
      assert u in n[i];
    }
    forall u | u in g ensures u in Aplanar(n) {
      assert u in n[|grupos|];
    }
  }

  lemma ControlesAnadir(unidades: map<UnidadId, Unidad>, us: set<UnidadId>, u: UnidadId)
    requires u in unidades
    ensures Disponibilidad.Controles(unidades, us + {u}) == Disponibilidad.Controles(unidades, us) + {unidades[u].numControl}
  {
  }

  lemma ControlesUnion(unidades: map<UnidadId, Unidad>, a: set<UnidadId>, b: set<UnidadId>)
    ensures Disponibilidad.Controles(unidades, a + b)
         == Disponibilidad.Controles(unidades, a) + Disponibilidad.Controles(unidades, b)
  {
  }

  /** `Orden.articulos()`: the articles of the order's units. */
  function ArticulosDe(unidades: map<UnidadId, Unidad>, o: Orden): (r: set<ArticuloId>)
    ensures forall a :: a in r <==> FilasDe(unidades, o, a) > 0
  {
    var r := set u | u in o.unidades && u in unidades :: unidades[u].articulo;
    forall a ensures a in r <==> FilasDe(unidades, o, a) > 0 {
      var filas := set u | u in o.unidades && u in unidades && unidades[u].articulo == a;
      if a in r {
        var u :| u in o.unidades && u in unidades && unidades[u].articulo == a;
        assert u in filas;
      }
      if filas != {} {
        var u :| u in filas;
        assert a in r;
      }
    }
    r
  }

  /**
   * How many rows `Orden.articulos()` yields for `articulo`: the query joins
   * through the units, so an article appears once per unit of it in the order.
   */
  function FilasDe(unidades: map<UnidadId, Unidad>, o: Orden, articulo: ArticuloId): nat {
    |set u | u in o.unidades && u in unidades && unidades[u].articulo == articulo|
  }

  /**
   * The test of PEMA/tests/models/test_orden.py:38-50: adding unit 1 twice
   * keeps one copy and one article; adding unit 2, of another article, gives
   * two articles, each listed once.
   */
  lemma EscenarioArticulos(unidades: map<UnidadId, Unidad>, o: Orden)
    requires 1 in unidades && 2 in unidades && unidades[1].articulo != unidades[2].articulo
    requires o.unidades == {}
    ensures var una := o.(unidades := o.unidades + {1} + {1});
      una.unidades == {1} && ArticulosDe(unidades, una) == {unidades[1].articulo}
      && FilasDe(unidades, una, unidades[1].articulo) == 1
    ensures var dos := o.(unidades := {1, 2});
      ArticulosDe(unidades, dos) == {unidades[1].articulo, unidades[2].articulo}
      && FilasDe(unidades, dos, unidades[1].articulo) == 1
      && FilasDe(unidades, dos, unidades[2].articulo) == 1
  {
    var a1 := unidades[1].articulo;
    var a2 := unidades[2].articulo;
    var dos := o.(unidades := {1, 2});
    assert (set u | u in dos.unidades && u in unidades && unidades[u].articulo == a1) == {1};
    assert (set u | u in dos.unidades && u in unidades && unidades[u].articulo == a2) == {2};
    var una := o.(unidades := o.unidades + {1} + {1});
    assert (set u | u in una.unidades && u in unidades && unidades[u].articulo == a1) == {1};
  }

  /** Two units of the same article in one order make `articulos()` list that article twice. */
  lemma ArticuloRepetido(unidades: map<UnidadId, Unidad>, o: Orden)
    requires 1 in unidades && 2 in unidades && unidades[1].articulo == unidades[2].articulo
    requires o.unidades == {1, 2}
    ensures ArticulosDe(unidades, o) == {unidades[1].articulo}
    ensures FilasDe(unidades, o, unidades[1].articulo) == 2
  {
    assert (set u | u in o.unidades && u in unidades && unidades[u].articulo == unidades[1].articulo) == {1, 2};
  }

  class BaseDatos {
    var usuarios: map<Usuario, Cuenta>
    var materias: map<string, Materia>
    var unidades: map<UnidadId, Unidad>
    var ordenes: map<OrdenId, Orden>
    /** The next primary key the `Orden` table hands out. */
    var siguienteOrden: OrdenId
    /** `Carrito` is one-to-one with its borrower. */
    var carritos: map<Usuario, Carrito>
    /** `CorresponsableOrden`, unique in (orden, prestatario). */
    var corresponsables: map<(OrdenId, Usuario), EstadoAutorizacion>
    /** `AutorizacionOrden`, unique in (orden, autorizador). */
    var autorizaciones: map<(OrdenId, Usuario), AutorizacionOrden>
    /** `Reporte`, unique in (almacen, orden). */
    var reportes: Reportes.TablaReportes

    /** Referential integrity of the foreign keys, and fresh order keys. */
    ghost predicate Valid()
      reads this`ordenes, this`siguienteOrden, this`materias, this`unidades, this`carritos
      reads this`corresponsables, this`autorizaciones, this`reportes
    {
      ValidSobre(materias.Keys)
    }

    /**
     * The invariant with the set of materia names given: it does not read
     * `materias` (nor `usuarios`), so changing a materia's members without
     * adding or removing a name keeps it.
     */
    ghost predicate ValidSobre(nombresMaterias: set<string>)
      reads this`ordenes, this`siguienteOrden, this`unidades, this`carritos
      reads this`corresponsables, this`autorizaciones, this`reportes
    {
      && (forall o :: o in ordenes ==>
            o < siguienteOrden && ordenes[o].materia in nombresMaterias && ordenes[o].unidades <= unidades.Keys)
      && (forall p :: p in carritos ==>
            carritos[p].materia in nombresMaterias && CarritoTabla.SinRepetidos(carritos[p].articulos))
      && (forall k :: k in corresponsables ==> k.0 in ordenes)
      && (forall k :: k in autorizaciones ==> k.0 in ordenes)
      && (forall k :: k in reportes ==> k.1 in ordenes)
    }

    /** Adding materias while the other tables stay as they were keeps the invariant. */
    twostate lemma ValidTrasMaterias()
      requires old(Valid())
      requires unchanged(this`ordenes, this`siguienteOrden, this`unidades, this`carritos)
      requires unchanged(this`corresponsables, this`autorizaciones, this`reportes)
      requires old(materias).Keys <= materias.Keys
      ensures Valid()
    {
    }

    constructor ()
      ensures Valid()
      ensures usuarios == map[] && materias == map[] && unidades == map[] && ordenes == map[]
      ensures carritos == map[] && corresponsables == map[] && autorizaciones == map[] && reportes == map[]
    {
      usuarios, materias, unidades, ordenes := map[], map[], map[], map[];
      siguienteOrden := 0;
      carritos, corresponsables, autorizaciones, reportes := map[], map[], map[], map[];
    }

    /**
     * `materia.maestros()`: the teachers listed on the materia, read through
     * `Maestro`'s manager, so only those still in the teachers' group.
     */
    function MaestrosDe(materia: string): set<Usuario>
      reads this
      requires materia in materias
    {
      set u | u in materias[materia].maestros && u in usuarios && Entidades.Maestros in usuarios[u].grupos
    }

    /** The users in the coordinators' group (`Coordinador.objects.all()`). */
    function Coordinadores(): set<Usuario>
      reads this
    {
      set u | u in usuarios && Entidades.Coordinadores in usuarios[u].grupos
    }

    /**
     * Who is asked to authorize an order once its co-signers accept: the
     * teachers of its materia still in the teachers' group for an ordinary
     * order, every coordinator for an extraordinary one.
     */
    function Destinatarios(orden: OrdenId): (r: set<Usuario>)
      reads this
      requires orden in ordenes && ordenes[orden].materia in materias
      ensures EsOrdinaria(ordenes[orden]) ==>
        forall u :: u in r <==> u in materias[ordenes[orden].materia].maestros
                                && u in usuarios && Entidades.Maestros in usuarios[u].grupos
      ensures EsExtraordinaria(ordenes[orden]) ==>
        forall u :: u in r <==> u in usuarios && Entidades.Coordinadores in usuarios[u].grupos
    {
      if EsOrdinaria(ordenes[orden]) then MaestrosDe(ordenes[orden].materia) else Coordinadores()
    }

    /**
     * `Articulo.disponible(inicio, final)`: scans the approved orders,
     * collects the units of those that conflict with the window, collects
     * their control numbers, and returns every unit whose control number was
     * not collected.
     */
    method Disponible(inicio: Instante, final: Instante) returns (libres: set<UnidadId>)
      requires Valid()
      ensures libres == Disponibilidad.UnidadesLibres(unidades, ordenes, inicio, final)
    {
      var unidadesConflicto := UnidadesEnConflicto(inicio, final);
      var idConflicto: seq<string> := [];
      var i := 0;
      while i < |unidadesConflicto|
        invariant 0 <= i <= |unidadesConflicto|
        invariant (set c | c in idConflicto) == Disponibilidad.Controles(unidades, Aplanar(unidadesConflicto[..i]))
      {
        var unid := unidadesConflicto[i];
        ghost var antes := Aplanar(unidadesConflicto[..i]);
        idConflicto := AnadirControles(idConflicto, unid);
        ControlesUnion(unidades, antes, unid);
        AplanarAnadir(unidadesConflicto[..i], unid);
        assert unidadesConflicto[..i + 1] == unidadesConflicto[..i] + [unid];
        i := i + 1;
      }
      assert unidadesConflicto[..i] == unidadesConflicto;
      libres := set u | u in unidades && unidades[u].numControl !in idConflicto;
    }

    /**
     * `disponible` restricted to the article's own units (the method's name
     * and docstring speak of the units of `self`) and blocking the units the
     * conflicting orders hold. Only approved orders block, as at
     * PEMA/models.py:493.
     */
    method DisponibleDeArticulo(articulo: ArticuloId, inicio: Instante, final: Instante) returns (libres: set<UnidadId>)
      requires Valid()
      ensures libres == Disponibilidad.UnidadesLibresDeArticulo(unidades, ordenes, articulo, inicio, final)
    {
      var unidadesConflicto := UnidadesEnConflicto(inicio, final);
      var ocupadas := Aplanar(unidadesConflicto);
      libres := set u | u in unidades && unidades[u].articulo == articulo && u !in ocupadas;
    }

    /**
     * The first loop of `disponible`: the unit sets of the approved orders
     * whose period conflicts with `[inicio, final]`, one set per order.
     */
    method UnidadesEnConflicto(inicio: Instante, final: Instante) returns (grupos: seq<set<UnidadId>>)
      requires Valid()
      ensures forall j :: 0 <= j < |grupos| ==> grupos[j] <= unidades.Keys
      ensures Aplanar(grupos) == Disponibilidad.UnidadesDe(ordenes, Disponibilidad.Bloqueantes(ordenes, inicio, final))
    {
      var aprobadas := set o | o in ordenes && ordenes[o].estado == Aprobada;
      ghost var bloqueantes := Disponibilidad.Bloqueantes(ordenes, inicio, final);
      grupos := [];
      var pendientes := aprobadas;
      ghost var vistas: set<OrdenId> := {};
      while pendientes != {}
        invariant pendientes <= aprobadas && vistas == aprobadas - pendientes
        invariant forall j :: 0 <= j < |grupos| ==> grupos[j] <= unidades.Keys
        invariant Aplanar(grupos) == Disponibilidad.UnidadesDe(ordenes, vistas * bloqueantes)
        decreases pendientes
      {
        var o :| o in pendientes;
        ghost var antes := Disponibilidad.UnidadesDe(ordenes, vistas * bloqueantes);
        if Disponibilidad.Conflicto(ordenes[o], inicio, final) {
          AplanarAnadir(grupos, ordenes[o].unidades);
          grupos := grupos + [ordenes[o].unidades];
          assert (vistas + {o}) * bloqueantes == vistas * bloqueantes + {o};
          assert Disponibilidad.UnidadesDe(ordenes, vistas * bloqueantes + {o}) == antes + ordenes[o].unidades;
        } else {
          assert (vistas + {o}) * bloqueantes == vistas * bloqueantes;
        }
        pendientes := pendientes - {o};
        vistas := vistas + {o};
      }
      assert vistas * bloqueantes == bloqueantes;
    }

    /** The inner loop of `disponible`: appends the control number of each unit of `unid`. */
    method AnadirControles(ids: seq<string>, unid: set<UnidadId>) returns (r: seq<string>)
      requires unid <= unidades.Keys
      ensures (set c | c in r) == (set c | c in ids) + Disponibilidad.Controles(unidades, unid)
    {
      r := ids;
      var resto := unid;
      while resto != {}
        invariant resto <= unid
        invariant (set c | c in r) == (set c | c in ids) + Disponibilidad.Controles(unidades, unid - resto)
        decreases resto
      {
        var unidad :| unidad in resto;
        ControlesAnadir(unidades, unid - resto, unidad);
        assert unid - (resto - {unidad}) == (unid - resto) + {unidad};
        assert (set c | c in r + [unidades[unidad].numControl])
            == (set c | c in r) + {unidades[unidad].numControl};
        r := r + [unidades[unidad].numControl];
        resto := resto - {unidad};
      }
      assert unid - resto == unid;
    }

    /** `Orden.agregar_unidad`: adds the unit to the order's `_unidades` relation. */
    method AgregarUnidad(orden: OrdenId, unidad: UnidadId)
      requires Valid() && orden in ordenes && unidad in unidades
      modifies this`ordenes
      ensures Valid()
      ensures ordenes == old(ordenes)[orden := old(ordenes)[orden].(unidades := old(ordenes)[orden].unidades + {unidad})]
    {
      var o := ordenes[orden];
      ordenes := ordenes[orden := o.(unidades := o.unidades + {unidad})];
    }

    /** `Orden.agregar_prestatario`: adds a co-signer to the order's `_corresponsables` relation. */
    method AgregarPrestatario(orden: OrdenId, prestatario: Usuario)
      requires Valid() && orden in ordenes
      modifies this`ordenes
      ensures Valid()
      ensures ordenes == old(ordenes)[orden :=
        old(ordenes)[orden].(corresponsables := old(ordenes)[orden].corresponsables + {prestatario})]
    {
      var o := ordenes[orden];
      ordenes := ordenes[orden := o.(corresponsables := o.corresponsables + {prestatario})];
    }

    /** Assigns `orden.estado` and saves the order (the signal handlers' `orden.save()`). */
    method FijarEstado(orden: OrdenId, estado: EstadoOrden)
      requires Valid() && orden in ordenes
      modifies this`ordenes
      ensures Valid()
      ensures ordenes == old(ordenes)[orden := old(ordenes)[orden].(estado := estado)]
    {
      ordenes := ordenes[orden := ordenes[orden].(estado := estado)];
    }

    /**
     * `Carrito.agregar(articulo, unidades)` on the borrower's cart: creates a
     * row when the article is absent, otherwise overwrites that row's quantity.
     */
    method Agregar(prestatario: Usuario, articulo: ArticuloId, unidades: int)
      requires Valid() && prestatario in carritos
      modifies this`carritos
      ensures Valid()
      ensures carritos == old(carritos)[prestatario :=
        old(carritos)[prestatario].(articulos := CarritoTabla.Agregar(old(carritos)[prestatario].articulos, articulo, unidades))]
    {
      var carrito := carritos[prestatario];
      CarritoTabla.AgregarSinRepetidos(carrito.articulos, articulo, unidades);
      match CarritoTabla.Posicion(carrito.articulos, articulo)
      case None =>
        var fila := ArticuloCarrito(articulo, unidades);
        carritos := carritos[prestatario := carrito.(articulos := carrito.articulos + [fila])];
      case Some(i) =>
        var data := carrito.articulos[i];
        data := data.(unidades := unidades);
        carritos := carritos[prestatario := carrito.(articulos := carrito.articulos[i := data])];
    }

    /**
     * `Carrito.ordenar()`, all or nothing: creates one ordinary order pending
     * its co-signers, copying borrower, materia and window from the cart;
     * registers the borrower as co-signer, with a pending `CorresponsableOrden`
     * row; deletes the cart (and its rows).
     */
    method Ordenar(prestatario: Usuario) returns (orden: OrdenId)
      requires Valid() && prestatario in carritos
      modifies this`ordenes, this`siguienteOrden, this`corresponsables, this`carritos
      ensures Valid()
      ensures orden !in old(ordenes)
      ensures var c := old(carritos)[prestatario];
        ordenes == old(ordenes)[orden := Orden(prestatario, c.materia, Ordinaria, PendienteCr, c.inicio, c.final, {prestatario}, {})]
      ensures corresponsables == old(corresponsables)[(orden, prestatario) := Pendiente]
      ensures carritos == old(carritos) - {prestatario}
    {
      var carrito := carritos[prestatario];
      // Orden.objects.create: the defaults give tipo ORDINARIA and estado PENDIENTE_CR;
      // agregar_prestatario then puts the borrower in the new order's co-signers
      orden := siguienteOrden;
      ordenes := ordenes[orden := Orden(prestatario, carrito.materia, Ordinaria, PendienteCr,
                                        carrito.inicio, carrito.final, {prestatario}, {})];
      siguienteOrden := siguienteOrden + 1;
      // CorresponsableOrden.objects.create: the order is new, so the key is free
      corresponsables := corresponsables[(orden, prestatario) := Pendiente];
      carritos := carritos - {prestatario};
      assert ordenes.Keys == old(ordenes).Keys + {orden};
      assert carritos.Keys <= old(carritos).Keys;
    }

    /**
     * `Orden.reportar(almacen, descripcion)`: `get_or_create` on the report
     * table; the result says whether a row was created.
     */
    method Reportar(almacen: Usuario, orden: OrdenId, descripcion: string) returns (r: Result<bool, Reportes.ErrorReporte>)
      requires Valid() && orden in ordenes
      modifies this`reportes
      ensures Valid()
      ensures var esperado := Reportes.Reportar(old(reportes), almacen, orden, descripcion);
        && (esperado.Ok? ==> r == Ok(esperado.value.1) && reportes == esperado.value.0)
        && (esperado.Err? ==> r == Err(esperado.error) && reportes == old(reportes))
    {
      var k := (almacen, orden);
      if k in reportes {
        if reportes[k].descripcion == descripcion {
          r := Ok(false);
        } else {
          r := Err(Reportes.ReporteDuplicado);
        }
      } else {
        reportes := reportes[k := Reporte(Activo, descripcion)];
        r := Ok(true);
      }
    }

    /**
     * `AutorizacionOrden.objects.create(autorizador=a, orden=orden, tipo=tipo)`
     * for each `a`, in the order the query yields them, until one fails with
     * an `IntegrityError` because the pair exists. No transaction encloses
     * the loop: the rows created before the failure stay (`creadas`).
     */
    method CrearAutorizaciones(orden: OrdenId, tipo: TipoOrden, autorizadores: set<Usuario>)
      returns (ok: bool, ghost creadas: set<Usuario>)
      requires Valid() && orden in ordenes
      modifies this`autorizaciones
      ensures Valid()
      ensures ok <==> forall a :: a in autorizadores ==> (orden, a) !in old(autorizaciones)
      ensures creadas <= autorizadores && (ok ==> creadas == autorizadores)
      ensures forall a :: a in creadas ==> (orden, a) !in old(autorizaciones)
      ensures autorizaciones == old(autorizaciones) + Solicitudes(orden, tipo, creadas)
    {
      ok := true;
      creadas := {};
      var resto := autorizadores;
      while resto != {}
        invariant resto <= autorizadores && creadas == autorizadores - resto
        invariant forall a :: a in creadas ==> (orden, a) !in old(autorizaciones)
        invariant autorizaciones == old(autorizaciones) + Solicitudes(orden, tipo, creadas)
        invariant forall k :: k in autorizaciones ==> k.0 in ordenes
        decreases resto
      {
        var a :| a in resto;
        if (orden, a) in autorizaciones {
          ok := false;
          return;
        }
        SolicitudesAnadir(orden, tipo, creadas, a, old(autorizaciones));
        autorizaciones := autorizaciones[(orden, a) := AutorizacionOrden(Pendiente, tipo)];
        resto := resto - {a};
        creadas := creadas + {a};
      }
    }

    /** `Maestro.solicitar_autorizacion(orden)`: one request per teacher `materia.maestros()` yields. */
    method SolicitarAutorizacionMaestros(orden: OrdenId) returns (ok: bool, ghost creadas: set<Usuario>)
      requires Valid() && orden in ordenes
      modifies this`autorizaciones
      ensures Valid()
      ensures var maestros := MaestrosDe(ordenes[orden].materia);
        && (ok <==> forall a :: a in maestros ==> (orden, a) !in old(autorizaciones))
        && creadas <= maestros && (ok ==> creadas == maestros)
        && autorizaciones == old(autorizaciones) + Solicitudes(orden, ordenes[orden].tipo, creadas)
    {
      var o := ordenes[orden];
      ok, creadas := CrearAutorizaciones(orden, o.tipo, MaestrosDe(o.materia));
    }

    /** `Coordinador.solicitar_autorizacion(orden)`: one request per coordinator. */
    method SolicitarAutorizacionCoordinadores(orden: OrdenId) returns (ok: bool, ghost creadas: set<Usuario>)
      requires Valid() && orden in ordenes
      modifies this`autorizaciones
      ensures Valid()
      ensures && (ok <==> forall a :: a in Coordinadores() ==> (orden, a) !in old(autorizaciones))
              && creadas <= Coordinadores() && (ok ==> creadas == Coordinadores())
              && autorizaciones == old(autorizaciones) + Solicitudes(orden, ordenes[orden].tipo, creadas)
    {
      ok, creadas := CrearAutorizaciones(orden, ordenes[orden].tipo, Coordinadores());
    }

    /**
     * `Materia.objects.get_or_create(nombre, year, semestre)`: `nombre` is the
     * primary key, so a materia of that name with another year or semester
     * makes the insert fail.
     */
    method ObtenerOCrearMateria(nombre: string, year: int, semestre: int) returns (r: Result<bool, ErrorIntegridad>)
      modifies this`materias
      ensures (nombre in old(materias) && old(materias)[nombre].year == year && old(materias)[nombre].semestre == semestre)
             ==> r == Ok(false) && materias == old(materias)
      ensures (nombre in old(materias) && (old(materias)[nombre].year != year || old(materias)[nombre].semestre != semestre))
             ==> r == Err(MateriaDuplicada) && materias == old(materias)
      ensures (nombre !in old(materias))
             ==> r == Ok(true) && materias == old(materias)[nombre := Materia(year, semestre, true, {}, {}, {})]
    {
      if nombre in materias {
        if materias[nombre].year == year && materias[nombre].semestre == semestre {
          r := Ok(false);
        } else {
          r := Err(MateriaDuplicada);
        }
      } else {
        materias := materias[nombre := Materia(year, semestre, true, {}, {}, {})];
        r := Ok(true);
      }
    }

    /** `Materia.agregar_maestro`. */
    method AgregarMaestro(materia: string, maestro: Usuario)
      requires materia in materias
      modifies this`materias
      ensures materias.Keys == old(materias).Keys
      ensures materias == old(materias)[materia := old(materias)[materia].(maestros := old(materias)[materia].maestros + {maestro})]
    {
      var m := materias[materia];
      materias := materias[materia := m.(maestros := m.maestros + {maestro})];
    }

    /** `Materia.agregar_alumno`. */
    method AgregarAlumno(materia: string, alumno: Usuario)
      requires materia in materias
      modifies this`materias
      ensures materias.Keys == old(materias).Keys
      ensures materias == old(materias)[materia := old(materias)[materia].(alumnos := old(materias)[materia].alumnos + {alumno})]
    {
      var m := materias[materia];
      materias := materias[materia := m.(alumnos := m.alumnos + {alumno})];
    }

    /** `Materia.agregar_articulo`. */
    method AgregarArticulo(materia: string, articulo: ArticuloId)
      requires materia in materias
      modifies this`materias
      ensures materias.Keys == old(materias).Keys
      ensures materias == old(materias)[materia := old(materias)[materia].(articulos := old(materias)[materia].articulos + {articulo})]
    {
      var m := materias[materia];
      materias := materias[materia := m.(articulos := m.articulos + {articulo})];
    }

    /**
     * `crear_usuario` of a role class: `create_user` (an `IntegrityError` when
     * the username is taken) and membership of the role's group.
     */
    method CrearUsuario(username: Usuario, nombre: string, password: string, grupo: Grupo) returns (ok: bool)
      modifies this`usuarios
      ensures ok <==> username !in old(usuarios)
      ensures usuarios == if ok then old(usuarios)[username := Cuenta(nombre, password, {grupo})] else old(usuarios)
    {
      ok := username !in usuarios;
      if ok {
        usuarios := usuarios[username := Cuenta(nombre, password, {grupo})];
      }
    }
  }
}
