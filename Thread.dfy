/**
 * The server thread of one connection: its run loop as a method over the
 * shared server object, proved to do what the session model Ejecutar says.
 * The socket's inbound stream is the sequence of reads it is given; the
 * replies it writes are returned; a thread that would wait forever (for a
 * change of the in-flight jobs, or for a read that never returns) returns
 * with bloqueado set, having skipped finalizar.
 */
module Thread {
  import opened Ledger
  import opened Session
  import Server

  class ServidorThread {
    const servidor: Server.Servidor

    constructor (serv: Server.Servidor)
      ensures servidor == serv
    {
      servidor := serv;
    }

    /** Another session's step on the shared server, taken while this one waits. */
    method Despertar(p: Paso)
      modifies servidor
      ensures servidor.Libro() == AplicarPaso(old(servidor.Libro()), p)
    {
      match p
      case OtroSaca =>
        var _ := servidor.SacarTrabajoSinRealizar();
      case OtroEntrega(t) =>
        var _ := servidor.AnhadirTrabajoRealizado(t);
    }

    /**
     * The wait for a job: wait once, then wait and poll again while work is
     * not all done and no job was obtained. Running out of wake-ups means the
     * thread would wait forever.
     */
    method EsperarTrabajo(w: seq<Paso>) returns (t: Option<Trabajo>, bloqueado: bool)
      modifies servidor
      ensures Espera(t, servidor.Libro(), bloqueado) == Session.Esperar(old(servidor.Libro()), w)
    {
      if w == [] {
        return None, true;
      }
      ghost var objetivo := Session.Esperar(servidor.Libro(), w);
      Despertar(w[0]);
      var i := 1;
      t := None;
      while !servidor.EstanTrabajosCompletados() && t.None?
        invariant 1 <= i <= |w|
        invariant t.None? ==> Reintentar(servidor.Libro(), w[i..]) == objetivo
        invariant t.Some? ==> Espera(t, servidor.Libro(), false) == objetivo
        decreases |w| - i
      {
        if i == |w| {
          return None, true;
        }
        assert w[i..][1..] == w[i + 1..];
        Despertar(w[i]);
        t := servidor.SacarTrabajoSinRealizar();
        i := i + 1;
      }
      bloqueado := false;
    }

    /** Writing a reply: sent when the write succeeds, otherwise a counted failure. */
    method Escribir(m: Accion, ok: bool, fin: bool, intentos: nat, finalizado: bool, respuestas: seq<Accion>)
      returns (intentos': nat, finalizado': bool, respuestas': seq<Accion>)
      ensures forall s: Sesion | s.intentos == intentos && s.finalizado == finalizado && s.respuestas == respuestas ::
        Session.Escribir(s, m, ok, fin) == s.(intentos := intentos', finalizado := finalizado', respuestas := respuestas')
    {
      if ok {
        respuestas' := respuestas + [m];
        finalizado' := fin;
        intentos' := 0;
      } else {
        intentos', finalizado', respuestas' := intentos + 1, finalizado, respuestas;
      }
    }

    /** A job request, with its reply and its wait. */
    method AtenderPeticion(ok: bool, w: seq<Paso>, intentos: nat, finalizado: bool, respuestas: seq<Accion>, ghost propios: seq<Trabajo>)
      returns (intentos': nat, finalizado': bool, respuestas': seq<Accion>, bloqueado: bool, ghost propios': seq<Trabajo>)
      modifies servidor
      ensures Sesion(servidor.Libro(), intentos', finalizado', respuestas', bloqueado, propios')
        == Pedir(Sesion(old(servidor.Libro()), intentos, finalizado, respuestas, false, propios), ok, w)
    {
      ghost var s := Sesion(servidor.Libro(), intentos, finalizado, respuestas, false, propios);
      var t := servidor.SacarTrabajoSinRealizar();
      bloqueado := false;
      propios' := propios;
      if t.None? && !servidor.EstanTrabajosCompletados() {
        t, bloqueado := EsperarTrabajo(w);
        assert Pedir(s, ok, w) == TrasEsperar(s, Espera(t, servidor.Libro(), bloqueado), ok);
        if bloqueado {
          intentos', finalizado', respuestas' := intentos, finalizado, respuestas;
          return;
        }
      }
      if t.Some? {
        propios' := propios + [t.value];
        intentos', finalizado', respuestas' := Escribir(Accion(EnviarTrabajo, t), ok, false, intentos, finalizado, respuestas);
      } else {
        intentos', finalizado', respuestas' := Escribir(Accion(FinalizarCliente, None), ok, true, intentos, finalizado, respuestas);
      }
    }

    /** A submitted job, handed to the ledger; a refused one is a counted failure. */
    method AtenderEntrega(t: Option<Trabajo>, intentos: nat, ghost finalizado: bool, ghost respuestas: seq<Accion>, ghost propios: seq<Trabajo>)
      returns (intentos': nat)
      modifies servidor
      ensures Sesion(servidor.Libro(), intentos', finalizado, respuestas, false, propios)
        == Entregar(Sesion(old(servidor.Libro()), intentos, finalizado, respuestas, false, propios), t)
    {
      if t.None? {
        return intentos + 1;
      }
      var aceptado := servidor.AnhadirTrabajoRealizado(t.value);
      intentos' := if aceptado then 0 else intentos + 1;
    }

    /**
     * The loop of run(): read an action, dispatch on its name, reset the
     * failure count when it was handled and count a failure otherwise, until
     * the session is finished or five failures came in a row; then finalizar.
     */
    method Run(lecturas: seq<Lectura>) returns (respuestas: seq<Accion>, bloqueado: bool)
      modifies servidor
      ensures var r := Ejecutar(old(servidor.Libro()), lecturas);
        servidor.Libro() == r.libro && respuestas == r.respuestas && bloqueado == r.bloqueado
      ensures servidor.nClientesTotales == old(servidor.nClientesTotales)
      ensures !bloqueado ==> servidor.nClientesFinalizados == old(servidor.nClientesFinalizados) + 1
    {
      ghost var e0 := servidor.Libro();
      var intentos: nat := 0;
      var finalizado := false;
      respuestas := [];
      bloqueado := false;
      ghost var propios: seq<Trabajo> := [];
      var ls := lecturas;
      while !finalizado && intentos < 5 && !bloqueado
        invariant intentos <= 5
        invariant Bucle(Sesion(servidor.Libro(), intentos, finalizado, respuestas, bloqueado, propios), ls)
          == Bucle(Inicio(e0), lecturas)
        decreases |ls|, 5 - intentos
      {
        ghost var s := Sesion(servidor.Libro(), intentos, finalizado, respuestas, bloqueado, propios);
        var l := Siguiente(ls);
        ls := Resto(ls);
        match l
        case FalloLectura =>
          intentos := intentos + 1;
        case SinRespuesta =>
          bloqueado := true;
        case Recibida(a, ok, w) =>
          match a.nombre
          case PedirTrabajo =>
            intentos, finalizado, respuestas, bloqueado, propios :=
              AtenderPeticion(ok, w, intentos, finalizado, respuestas, propios);
          case EnviarTrabajoTerminado =>
            intentos := AtenderEntrega(a.trabajo, intentos, finalizado, respuestas, propios);
          case _ =>
            intentos := intentos + 1;
        assert Sesion(servidor.Libro(), intentos, finalizado, respuestas, bloqueado, propios) == Iteracion(s, l);
      }
      EjecutarFinalizaUnaVez(e0, lecturas);
      if !bloqueado {
        servidor.Finalizar();
      }
    }
  }
}
