/**
 * The post-save handlers of PEMA/signals.py that move an order through its
 * states: the co-signers' verdict takes it from pending co-signers to pending
 * authorization (sending out the authorization requests) or to rejected, and
 * an authorization decision takes it to approved or rejected.
 */
module Senales {
  import opened Wrappers
  import opened Entidades
  import Corresponsables
  import BaseDatos

  /** The estado the co-signer handler gives an order whose co-signers' verdict is `veredicto`. */
  function EstadoTrasCorresponsables(actual: EstadoOrden, veredicto: Option<EstadoAutorizacion>): (r: EstadoOrden)
    ensures veredicto == Some(EstadoAutorizacion.Aceptada) ==> r == PendienteAp
    ensures veredicto == Some(EstadoAutorizacion.Rechazada) ==> r == EstadoOrden.Rechazada
    ensures (veredicto == None || veredicto == Some(Pendiente)) ==> r == actual
  {
    match veredicto
    case Some(Aceptada) => PendienteAp
    case Some(Rechazada) => EstadoOrden.Rechazada
    case _ => actual
  }

  /** The estado the authorization handler gives an order whose authorization was saved as `decision`. */
  function EstadoTrasAutorizacion(actual: EstadoOrden, decision: EstadoAutorizacion): (r: EstadoOrden)
    ensures decision == Aceptada ==> r == Aprobada
    ensures decision == EstadoAutorizacion.Rechazada ==> r == EstadoOrden.Rechazada
    ensures decision == Pendiente ==> r == actual
  {
    match decision
    case Aceptada => Aprobada
    case Rechazada => EstadoOrden.Rechazada
    case Pendiente => actual
  }

  /** A save that reaches the order: a co-signer verdict, or an authorization decision. */
  datatype Evento = Corresponsal(veredicto: Option<EstadoAutorizacion>) | Autorizador(decision: EstadoAutorizacion)

  function Paso(actual: EstadoOrden, e: Evento): EstadoOrden {
    match e
    case Corresponsal(v) => EstadoTrasCorresponsables(actual, v)
    case Autorizador(d) => EstadoTrasAutorizacion(actual, d)
  }

  /** The estado after the events, in order. */
  function Ejecutar(actual: EstadoOrden, eventos: seq<Evento>): EstadoOrden
    decreases |eventos|
  {
    if eventos == [] then actual else Ejecutar(Paso(actual, eventos[0]), eventos[1..])
  }

  /** The estado an event writes regardless of the current one, if it writes any. */
  function Efecto(e: Evento): Option<EstadoOrden> {
    match e
    case Corresponsal(Some(Aceptada)) => Some(PendienteAp)
    case Corresponsal(Some(Rechazada)) => Some(EstadoOrden.Rechazada)
    case Corresponsal(_) => None
    case Autorizador(Aceptada) => Some(Aprobada)
    case Autorizador(Rechazada) => Some(EstadoOrden.Rechazada)
    case Autorizador(Pendiente) => None
  }

  /** What the last event that writes an estado wrote, if any did. */
  function UltimoEfecto(eventos: seq<Evento>): Option<EstadoOrden>
    decreases |eventos|
  {
    if eventos == [] then None
    else if Efecto(eventos[|eventos| - 1]).Some? then Efecto(eventos[|eventos| - 1])
    else UltimoEfecto(eventos[..|eventos| - 1])
  }

  lemma PasoEsEfecto(actual: EstadoOrden, e: Evento)
    ensures Paso(actual, e) == if Efecto(e).Some? then Efecto(e).value else actual
  {
  }

  lemma {:induction false} EjecutarAnadir(actual: EstadoOrden, eventos: seq<Evento>, e: Evento)
    ensures Ejecutar(actual, eventos + [e]) == Paso(Ejecutar(actual, eventos), e)
    decreases |eventos|
  {
    if eventos == [] {
      assert [e][1..] == [];
    } else {
      assert (eventos + [e])[1..] == eventos[1..] + [e];
      EjecutarAnadir(Paso(actual, eventos[0]), eventos[1..], e);
    }
  }

  /**
   * No decision is final: the estado of an order is whatever the last
   * decisive save wrote, whatever came before it, and the initial estado
   * only when no save was decisive.
   */
  lemma {:induction false} UltimaDecisionPrevalece(actual: EstadoOrden, eventos: seq<Evento>)
    ensures Ejecutar(actual, eventos) == match UltimoEfecto(eventos) case Some(x) => x case None => actual
    decreases |eventos|
  {
    if eventos != [] {
      var previos := eventos[..|eventos| - 1];
      var e := eventos[|eventos| - 1];
      assert eventos == previos + [e];
      EjecutarAnadir(actual, previos, e);
      UltimaDecisionPrevalece(actual, previos);
      PasoEsEfecto(Ejecutar(actual, previos), e);
    }
  }

  /**
   * An approved order is rejected by a later rejecting authorization, and
   * vice versa; nothing guards a cancelled order either.
   */
  lemma AprobadaNoEsDefinitiva()
    ensures Ejecutar(Aprobada, [Autorizador(EstadoAutorizacion.Rechazada)]) == EstadoOrden.Rechazada
    ensures Ejecutar(EstadoOrden.Rechazada, [Autorizador(Aceptada)]) == Aprobada
    ensures Ejecutar(Aprobada, [Corresponsal(Some(Aceptada))]) == PendienteAp
    ensures Ejecutar(Cancelada, [Autorizador(Aceptada)]) == Aprobada
    ensures Ejecutar(Cancelada, [Corresponsal(Some(EstadoAutorizacion.Rechazada))]) == EstadoOrden.Rechazada
  {
  }

  /**
   * The handlers never write CANCELADA: an order ends cancelled only when it
   * started so and no save was decisive; a later decisive save overwrites a
   * cancelled order.
   */
  lemma {:induction false} CanceladaSoloSiInicial(actual: EstadoOrden, eventos: seq<Evento>)
    ensures Ejecutar(actual, eventos) == Cancelada <==> actual == Cancelada && UltimoEfecto(eventos) == None
  {
    UltimaDecisionPrevalece(actual, eventos);
    if UltimoEfecto(eventos).Some? {
      UltimoEfectoNoCancela(eventos);
    }
  }

  lemma {:induction false} UltimoEfectoNoCancela(eventos: seq<Evento>)
    requires UltimoEfecto(eventos).Some?
    ensures UltimoEfecto(eventos).value != Cancelada
    decreases |eventos|
  {
    if Efecto(eventos[|eventos| - 1]).None? {
      UltimoEfectoNoCancela(eventos[..|eventos| - 1]);
    }
  }

  /**
   * `corresponsable_orden_updated`: nothing on creation; otherwise the
   * order takes the estado its co-signers' verdict gives and is saved. On an
   * accepting verdict the authorization requests go out first, to the
   * teachers of an ordinary order or to the coordinators of an
   * extraordinary one; when one of them already exists the request raises
   * an `IntegrityError`, the order is not saved and `ok` is false, but the
   * requests created before it stay.
   */
  method CorresponsableOrdenGuardado(db: BaseDatos.BaseDatos, orden: OrdenId, creado: bool)
    returns (ok: bool, ghost creadas: set<Usuario>)
    requires db.Valid() && orden in db.ordenes
    modifies db`ordenes, db`autorizaciones
    ensures db.Valid()
    ensures creado ==> ok && db.ordenes == old(db.ordenes) && db.autorizaciones == old(db.autorizaciones)
    ensures !creado && Corresponsables.Veredicto(Corresponsables.EstadosDe(db.corresponsables, orden)) != Some(Aceptada) ==>
      var o := old(db.ordenes)[orden];
      && ok && db.autorizaciones == old(db.autorizaciones)
      && db.ordenes == old(db.ordenes)[orden := o.(estado := EstadoTrasCorresponsables(o.estado,
           Corresponsables.Veredicto(Corresponsables.EstadosDe(db.corresponsables, orden))))]
    ensures !creado && Corresponsables.Veredicto(Corresponsables.EstadosDe(db.corresponsables, orden)) == Some(Aceptada) ==>
      var o := old(db.ordenes)[orden];
      var destinatarios := old(db.Destinatarios(orden));
      && (ok <==> forall a :: a in destinatarios ==> (orden, a) !in old(db.autorizaciones))
      && creadas <= destinatarios && (ok ==> creadas == destinatarios)
      && db.autorizaciones == old(db.autorizaciones) + BaseDatos.Solicitudes(orden, o.tipo, creadas)
      && db.ordenes == if ok then old(db.ordenes)[orden := o.(estado := PendienteAp)] else old(db.ordenes)
  {
    ok, creadas := true, {};
    if creado {
      return;
    }
    var o := db.ordenes[orden];
    var veredicto := Corresponsables.Veredicto(Corresponsables.EstadosDe(db.corresponsables, orden));
    match veredicto {
      case Some(Aceptada) =>
        o := o.(estado := PendienteAp);
        if EsOrdinaria(o) {
          ok, creadas := db.SolicitarAutorizacionMaestros(orden);
        }
        if EsExtraordinaria(o) {
          ok, creadas := db.SolicitarAutorizacionCoordinadores(orden);
        }
        if !ok {
          return;
        }
      case Some(Rechazada) =>
        o := o.(estado := EstadoOrden.Rechazada);
      case _ =>
    }
    db.FijarEstado(orden, o.estado);
  }

  /**
   * A co-signer answers: their `CorresponsableOrden` row takes the new
   * estado and is saved, which runs `corresponsable_orden_updated`.
   */
  method ResponderCorresponsable(db: BaseDatos.BaseDatos, orden: OrdenId, prestatario: Usuario, respuesta: EstadoAutorizacion)
    returns (ok: bool, ghost creadas: set<Usuario>)
    requires db.Valid() && (orden, prestatario) in db.corresponsables
    modifies db`corresponsables, db`ordenes, db`autorizaciones
    ensures db.Valid()
    ensures db.corresponsables == old(db.corresponsables)[(orden, prestatario) := respuesta]
    ensures respuesta == EstadoAutorizacion.Rechazada ==>
      ok && db.autorizaciones == old(db.autorizaciones)
      && db.ordenes == old(db.ordenes)[orden := old(db.ordenes)[orden].(estado := EstadoOrden.Rechazada)]
    ensures Corresponsables.Veredicto(Corresponsables.EstadosDe(db.corresponsables, orden)) != Some(Aceptada) ==>
      var o := old(db.ordenes)[orden];
      && ok && db.autorizaciones == old(db.autorizaciones)
      && db.ordenes == old(db.ordenes)[orden := o.(estado := EstadoTrasCorresponsables(o.estado,
           Corresponsables.Veredicto(Corresponsables.EstadosDe(db.corresponsables, orden))))]
    ensures Corresponsables.Veredicto(Corresponsables.EstadosDe(db.corresponsables, orden)) == Some(Aceptada) ==>
      var o := old(db.ordenes)[orden];
      var destinatarios := old(db.Destinatarios(orden));
      && (ok <==> forall a :: a in destinatarios ==> (orden, a) !in old(db.autorizaciones))
      && creadas <= destinatarios && (ok ==> creadas == destinatarios)
      && db.autorizaciones == old(db.autorizaciones) + BaseDatos.Solicitudes(orden, o.tipo, creadas)
      && db.ordenes == if ok then old(db.ordenes)[orden := o.(estado := PendienteAp)] else old(db.ordenes)
  {
    db.corresponsables := db.corresponsables[(orden, prestatario) := respuesta];
    assert respuesta in Corresponsables.EstadosDe(db.corresponsables, orden);
    ok, creadas := CorresponsableOrdenGuardado(db, orden, false);
  }

  /**
   * `autorizacion_orden_updated` for the saved row `(orden, autorizador)`:
   * nothing on creation; otherwise the row's order becomes approved when the
   * row is accepted, rejected when it is rejected, and keeps its estado
   * while it is pending; then it is saved.
   */
  method AutorizacionOrdenGuardada(db: BaseDatos.BaseDatos, orden: OrdenId, autorizador: Usuario, creado: bool)
    requires db.Valid() && (orden, autorizador) in db.autorizaciones
    modifies db`ordenes
    ensures db.Valid()
    ensures creado ==> db.ordenes == old(db.ordenes)
    ensures !creado ==> db.ordenes == old(db.ordenes)[orden := old(db.ordenes)[orden].(estado :=
      EstadoTrasAutorizacion(old(db.ordenes)[orden].estado, db.autorizaciones[(orden, autorizador)].estado))]
  {
    if creado {
      return;
    }
    var decision := db.autorizaciones[(orden, autorizador)].estado;
    var estado := db.ordenes[orden].estado;
    if decision == Aceptada {
      estado := Aprobada;
    }
    if decision == EstadoAutorizacion.Rechazada {
      estado := EstadoOrden.Rechazada;
    }
    db.FijarEstado(orden, estado);
  }

  /**
   * An authorizer answers: their `AutorizacionOrden` row takes the new
   * estado (`aceptar` / `rechazar`) and is saved, which runs
   * `autorizacion_orden_updated` on it.
   */
  method ResponderAutorizacion(db: BaseDatos.BaseDatos, orden: OrdenId, autorizador: Usuario, respuesta: EstadoAutorizacion)
    requires db.Valid() && (orden, autorizador) in db.autorizaciones
    modifies db`autorizaciones, db`ordenes
    ensures db.Valid()
    ensures db.autorizaciones == old(db.autorizaciones)[(orden, autorizador) :=
      old(db.autorizaciones)[(orden, autorizador)].(estado := respuesta)]
    ensures db.ordenes == old(db.ordenes)[orden := old(db.ordenes)[orden].(estado :=
      EstadoTrasAutorizacion(old(db.ordenes)[orden].estado, respuesta))]
  {
    db.autorizaciones := db.autorizaciones[(orden, autorizador) := db.autorizaciones[(orden, autorizador)].(estado := respuesta)];
    AutorizacionOrdenGuardada(db, orden, autorizador, false);
  }
}
