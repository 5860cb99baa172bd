/**
 * The server object: the job ledger kept in fields that its synchronized
 * methods update in place. Each method is one atomic step and is proved to
 * move the ledger exactly as the matching function of module Ledger does.
 */
module Server {
  import opened Ledger

  class Servidor {
    var trabajosPorRealizar: seq<Trabajo>
    var trabajosRealizando: map<Uuid, Trabajo>
    var trabajosRealizados: Ordenados
    var finalizado: bool
    var nClientesFinalizados: int
    var nClientesTotales: int

    /** The ledger these fields hold. */
    function Libro(): Estado
      reads this
    {
      Estado(trabajosPorRealizar, trabajosRealizando, trabajosRealizados,
             nClientesTotales, nClientesFinalizados, finalizado)
    }

    /** A server seeded with the generated queue, no client yet. */
    constructor (cola: seq<Trabajo>)
      ensures Libro() == Inicial(cola)
    {
      trabajosPorRealizar := cola;
      trabajosRealizando := map[];
      trabajosRealizados := [];
      finalizado := false;
      nClientesFinalizados := 0;
      nClientesTotales := 0;
    }

    predicate EstanTrabajosCompletados()
      reads this
      ensures EstanTrabajosCompletados() <==> trabajosPorRealizar == [] && trabajosRealizando == map[]
    {
      Ledger.EstanTrabajosCompletados(Libro())
    }

    predicate HayTrabajosPorRealizar()
      reads this
      ensures HayTrabajosPorRealizar() <==> trabajosPorRealizar != []
    {
      Ledger.HayTrabajosPorRealizar(Libro())
    }

    method SacarTrabajoSinRealizar() returns (t: Option<Trabajo>)
      modifies this
      ensures (t, Libro()) == Ledger.SacarTrabajoSinRealizar(old(Libro()))
    {
      if trabajosPorRealizar == [] {
        t := None;
      } else {
        var actual := trabajosPorRealizar[0];
        trabajosPorRealizar := trabajosPorRealizar[1..];
        trabajosRealizando := trabajosRealizando[actual.id := actual];
        t := Some(actual);
      }
    }

    /** Returns false where the source throws "the job is not being done". */
    method AnhadirTrabajoRealizado(t: Trabajo) returns (aceptado: bool)
      modifies this
      ensures aceptado <==> t.id in old(trabajosRealizando)
      ensures aceptado ==> Libro() == Ledger.AnhadirTrabajoRealizado(old(Libro()), t).estado
      ensures !aceptado ==> Libro() == old(Libro())
    {
      if t.id in trabajosRealizando {
        trabajosRealizados := Insertar(trabajosRealizados, t);
        trabajosRealizando := trabajosRealizando - {t.id};
        aceptado := true;
      } else {
        aceptado := false;
      }
    }

    method DevolverTrabajoRealizando(t: Trabajo)
      modifies this
      ensures Libro() == Ledger.DevolverTrabajoRealizando(old(Libro()), t)
    {
      trabajosRealizando := trabajosRealizando - {t.id};
      trabajosPorRealizar := trabajosPorRealizar + [t];
    }

    method Finalizar()
      modifies this
      ensures Libro() == Ledger.Finalizar(old(Libro()))
    {
      nClientesFinalizados := nClientesFinalizados + 1;
      if nClientesFinalizados == nClientesTotales {
        finalizado := true;
      }
    }

    method NuevoCliente()
      modifies this
      ensures Libro() == Ledger.NuevoCliente(old(Libro()))
    {
      nClientesTotales := nClientesTotales + 1;
    }

    predicate PodemosFinalizar()
      reads this
      ensures PodemosFinalizar() <==> Ledger.PodemosFinalizar(Libro())
    {
      finalizado
    }

    /**
     * The final merge: every completed job's matrix goes to the image, once,
     * walking the completed set, hence in strictly ascending position.
     */
    method IntegrarTrabajosRealizados() returns (imagen: seq<Matriz>)
      ensures |imagen| == |trabajosRealizados|
      ensures forall i :: 0 <= i < |imagen| ==> imagen[i] == trabajosRealizados[i].matriz
      ensures forall i, j :: 0 <= i < j < |imagen| ==>
        trabajosRealizados[i].posicion < trabajosRealizados[j].posicion
    {
      imagen := [];
      for i := 0 to |trabajosRealizados|
        invariant |imagen| == i
        invariant forall k :: 0 <= k < i ==> imagen[k] == trabajosRealizados[k].matriz
      {
        imagen := imagen + [trabajosRealizados[i].matriz];
      }
    }
  }
}
