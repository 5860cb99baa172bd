/**
 * The session with its failure path repaired: before it counts itself as
 * finished, a session that stops hands every job it still holds back to the
 * queue, as devolverTrabajoRealizando was written to do.
 */
module Returning {
  import opened Ledger
  import opened Exclusividad
  import opened Session

  /**
   * Hands back, one after the other, each of the given jobs whose id is
   * still in flight: its id leaves the in-flight map and the job joins the
   * tail of the queue.
   */
  function DevolverPropios(e: Estado, hs: seq<Trabajo>): (r: Estado)
    ensures r.realizando.Keys == e.realizando.Keys - IdsDe(hs)
    ensures r.realizados == e.realizados && MismosContadores(e, r)
    decreases |hs|
  {
    if hs == [] then e
    else
      var e' := if hs[0].id in e.realizando then DevolverTrabajoRealizando(e, hs[0]) else e;
      Cabeza(hs);
      DevolverPropios(e', hs[1..])
  }

  /** Each held job whose id is in flight has the position of the job stored there. */
  predicate Coinciden(e: Estado, hs: seq<Trabajo>)
  {
    forall t :: t in hs && t.id in e.realizando ==> e.realizando[t.id].posicion == t.posicion
  }

  /**
   * Returning jobs that agree with the in-flight ones keeps jobs exclusive to
   * one place and loses none: the count and the ids are unchanged.
   */
  lemma {:induction false} DevolverPropiosConserva(e: Estado, hs: seq<Trabajo>)
    requires Exclusivo(e) && Coinciden(e, hs)
    ensures Exclusivo(DevolverPropios(e, hs))
    ensures Total(DevolverPropios(e, hs)) == Total(e)
    ensures Ids(DevolverPropios(e, hs)) == Ids(e)
    decreases |hs|
  {
    if hs != [] {
      if hs[0].id in e.realizando {
        DevolverConserva(e, hs[0]);
        DevolverPropiosConserva(DevolverTrabajoRealizando(e, hs[0]), hs[1..]);
      } else {
        DevolverPropiosConserva(e, hs[1..]);
      }
    }
  }

  /**
   * Returning only appends to the queue, and every given job that was in
   * flight is queued again afterwards.
   */
  lemma {:induction false} DevolverPropiosEncola(e: Estado, hs: seq<Trabajo>)
    ensures e.porRealizar <= DevolverPropios(e, hs).porRealizar
    ensures forall t :: t in hs && t.id in e.realizando ==> t.id in IdsDe(DevolverPropios(e, hs).porRealizar)
    decreases |hs|
  {
    if hs != [] {
      Cabeza(hs);
      var e' := if hs[0].id in e.realizando then DevolverTrabajoRealizando(e, hs[0]) else e;
      DevolverPropiosEncola(e', hs[1..]);
      var r := DevolverPropios(e', hs[1..]);
      assert r == DevolverPropios(e, hs);
      forall t | t in hs && t.id in e.realizando
        ensures t.id in IdsDe(r.porRealizar)
      {
        if t.id == hs[0].id {
          assert e'.porRealizar[|e.porRealizar|] == hs[0];
          assert r.porRealizar[|e.porRealizar|] == hs[0];
        } else {
          assert t in hs[1..] && t.id in e'.realizando;
        }
      }
    }
  }

  /**
   * The repaired session: the same loop, then, unless the thread hangs, the
   * jobs it still holds go back to the queue before finalizar is called.
   */
  function EjecutarDevolviendo(e: Estado, ls: seq<Lectura>): Sesion
  {
    var s := Bucle(Inicio(e), ls);
    if s.bloqueado then s else s.(libro := Finalizar(DevolverPropios(s.libro, s.propios)))
  }

  /**
   * A repaired session that ends holds nothing: none of the jobs it checked
   * out is left in flight, each of them that was still in flight when its
   * loop ended is back in the queue, the queue only grew, it wrote the same
   * replies as the session as written, and it still calls finalizar exactly
   * once.
   */
  lemma EjecutarDevolviendoLibera(e: Estado, ls: seq<Lectura>)
    ensures var r := EjecutarDevolviendo(e, ls);
      var s := Bucle(Inicio(e), ls);
      && r.respuestas == Ejecutar(e, ls).respuestas
      && r.bloqueado == Ejecutar(e, ls).bloqueado
      && MismosContadores(r.libro, Ejecutar(e, ls).libro)
      && (!r.bloqueado ==> forall t :: t in r.propios ==> t.id !in r.libro.realizando)
      && (!r.bloqueado ==> forall t :: t in r.propios && t.id in s.libro.realizando ==> t.id in IdsDe(r.libro.porRealizar))
      && s.libro.porRealizar <= r.libro.porRealizar
  {
    var s := Bucle(Inicio(e), ls);
    DevolverPropiosEncola(s.libro, s.propios);
    forall t | t in s.propios
      ensures t.id in IdsDe(s.propios)
    {
    }
  }

  /**
   * The single-job, single-client run that strands the job as written: with
   * the repair the job is back in the queue when the session ends.
   */
  lemma TrabajoRecuperado(j: Trabajo)
    ensures var e := NuevoCliente(Inicial([j]));
      var r := EjecutarDevolviendo(e, [Recibida(Accion(PedirTrabajo, None), true, [])]);
      && !r.bloqueado
      && j.id !in r.libro.realizando
      && r.libro.porRealizar == [j]
      && HayTrabajosPorRealizar(r.libro)
  {
    UnTrabajoUnaPeticion(j);
    var e := NuevoCliente(Inicial([j]));
    var l := e.(porRealizar := [], realizando := map[j.id := j]);
    assert DevolverPropios(l, [j]) == DevolverPropios(DevolverTrabajoRealizando(l, j), []);
  }
}
