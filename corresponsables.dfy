/**
 * The approval state of one co-signer or authorizer (`Autorizacion`,
 * PEMA/models.py:868-898) and the verdict `Orden.estado_corresponsables`
 * draws from all co-signers of an order (PEMA/models.py:654-670).
 */
module Corresponsables {
  import opened Wrappers
  import opened Entidades

  /**
   * An `Autorizacion` instance: created pending, then accepted or rejected
   * by assigning its state.
   */
  class Autorizacion {
    var estado: EstadoAutorizacion

    constructor ()
      ensures estado == Pendiente
    {
      estado := Pendiente;
    }

    predicate EstaPendiente()
      reads this
    {
      estado == Pendiente
    }

    predicate EstaAceptada()
      reads this
    {
      estado == Aceptada
    }

    predicate EstaRechazada()
      reads this
    {
      estado == EstadoAutorizacion.Rechazada
    }

    method Aceptar()
      modifies this
      ensures EstaAceptada() && !EstaPendiente() && !EstaRechazada()
    {
      estado := Aceptada;
    }

    method Rechazar()
      modifies this
      ensures EstaRechazada() && !EstaPendiente() && !EstaAceptada()
    {
      estado := EstadoAutorizacion.Rechazada;
    }
  }

  /** At any time exactly one of the three predicates holds. */
  lemma ExactamenteUnEstado(a: Autorizacion)
    ensures a.EstaPendiente() || a.EstaAceptada() || a.EstaRechazada()
    ensures !(a.EstaPendiente() && a.EstaAceptada())
    ensures !(a.EstaPendiente() && a.EstaRechazada())
    ensures !(a.EstaAceptada() && a.EstaRechazada())
  {
  }

  /**
   * `estado_corresponsables` on the set of the co-signers' states: a
   * rejection wins, then a pending answer; accepted only when every
   * co-signer accepted; nothing (`None`) when there is no co-signer.
   */
  function Veredicto(estados: set<EstadoAutorizacion>): (r: Option<EstadoAutorizacion>)
    ensures r == Some(EstadoAutorizacion.Rechazada) <==> EstadoAutorizacion.Rechazada in estados
    ensures r == Some(Pendiente) <==> Pendiente in estados && EstadoAutorizacion.Rechazada !in estados
    ensures r == Some(Aceptada) <==> estados == {Aceptada}
    ensures r == None <==> estados == {}
  {
    if EstadoAutorizacion.Rechazada in estados then Some(EstadoAutorizacion.Rechazada)
    else if Pendiente in estados then Some(Pendiente)
    else
      assert estados <= {Aceptada} by {
        forall e | e in estados ensures e == Aceptada { }
      }
      if |estados| == 1 && Aceptada in estados then Some(Aceptada) else None
  }

  /** One step of an independent, left-to-right reading of the co-signers' answers. */
  function Combinar(acumulado: Option<EstadoAutorizacion>, e: EstadoAutorizacion): Option<EstadoAutorizacion> {
    match acumulado
    case None => Some(e)
    case Some(a) =>
      if a == EstadoAutorizacion.Rechazada || e == EstadoAutorizacion.Rechazada then Some(EstadoAutorizacion.Rechazada)
      else if a == Pendiente || e == Pendiente then Some(Pendiente)
      else Some(Aceptada)
  }

  /** The verdict of a list of answers, folded one answer at a time. */
  function VeredictoLista(respuestas: seq<EstadoAutorizacion>): Option<EstadoAutorizacion> {
    if respuestas == [] then None
    else Combinar(VeredictoLista(respuestas[..|respuestas| - 1]), respuestas[|respuestas| - 1])
  }

  /** The fold and the set-based verdict agree on every list of answers. */
  lemma {:induction false} VeredictoListaCoincide(respuestas: seq<EstadoAutorizacion>)
    ensures VeredictoLista(respuestas) == Veredicto(set e | e in respuestas)
  {
    if respuestas != [] {
      var init := respuestas[..|respuestas| - 1];
      var ultimo := respuestas[|respuestas| - 1];
      VeredictoListaCoincide(init);
      assert (set e | e in respuestas) == (set e | e in init) + {ultimo} by {
        assert respuestas == init + [ultimo];
      }
    }
  }

  /**
   * The verdict depends only on which states occur, not on the order or
   * the number of co-signers giving each.
   */
  lemma VeredictoSoloDependeDelConjunto(s: seq<EstadoAutorizacion>, t: seq<EstadoAutorizacion>)
    requires forall e :: e in s <==> e in t
    ensures VeredictoLista(s) == VeredictoLista(t)
  {
    VeredictoListaCoincide(s);
    VeredictoListaCoincide(t);
    assert (set e | e in s) == (set e | e in t);
  }

  /** The states of the `CorresponsableOrden` rows of order `orden`. */
  function EstadosDe(corresponsables: map<(OrdenId, Usuario), EstadoAutorizacion>, orden: OrdenId): set<EstadoAutorizacion> {
    set k | k in corresponsables && k.0 == orden :: corresponsables[k]
  }

  /**
   * Adding or updating a row of another order does not change this order's
   * verdict.
   */
  lemma VeredictoLocal(corresponsables: map<(OrdenId, Usuario), EstadoAutorizacion>, orden: OrdenId,
                       k: (OrdenId, Usuario), e: EstadoAutorizacion)
    requires k.0 != orden
    ensures Veredicto(EstadosDe(corresponsables[k := e], orden)) == Veredicto(EstadosDe(corresponsables, orden))
  {
    assert EstadosDe(corresponsables[k := e], orden) == EstadosDe(corresponsables, orden);
  }
}
