/**
 * One client session (the server thread of one connection) as a state
 * machine over what it reads. Socket streams are abstracted: the inbound
 * side is a sequence of reads, each an action or a failed read, and the
 * outbound side is the sequence of replies written. Waiting for changes in
 * the in-flight jobs is modelled by the ledger steps of other sessions that
 * wake this one up, carried with the request that made it wait.
 */
module Session {
  import opened Ledger

  /** The action names of the wire protocol, and any other name. */
  datatype Nombre =
    | PedirTrabajo
    | EnviarTrabajo
    | EnviarTrabajoTerminado
    | FinalizarCliente
    | Otra(nombre: string)

  /** A protocol message: a name and, for some names, a job. */
  datatype Accion = Accion(nombre: Nombre, trabajo: Option<Trabajo>)

  /** A ledger step taken by another session: what wakes a waiting session. */
  datatype Paso = OtroSaca | OtroEntrega(t: Trabajo)

  /**
   * One read of the inbound stream: an action (with whether writing the
   * reply to it succeeds, and the wake-ups it may have to wait for), a
   * failed read, or a read that never returns (the client stays connected
   * and sends nothing; the socket has no timeout). Once the stream is
   * exhausted every read fails.
   */
  datatype Lectura =
    | Recibida(accion: Accion, escrituraOk: bool, despertares: seq<Paso>)
    | FalloLectura
    | SinRespuesta

  /**
   * The state of the loop: the ledger, the failure counter, the end flag,
   * the replies written, whether the thread hangs (in the wait or in a
   * read that never returns), and the jobs
   * this session checked out (bookkeeping the source does not keep).
   */
  datatype Sesion = Sesion(
    libro: Estado,
    intentos: nat,
    finalizado: bool,
    respuestas: seq<Accion>,
    bloqueado: bool,
    propios: seq<Trabajo>)

  /** Another session's step on the ledger; a refused completion changes nothing. */
  function AplicarPaso(e: Estado, p: Paso): Estado
  {
    match p
    case OtroSaca => SacarTrabajoSinRealizar(e).1
    case OtroEntrega(t) =>
      match AnhadirTrabajoRealizado(e, t)
      case Anhadido(e') => e'
      case NoSeEstaRealizando => e
  }

  /** Outcome of waiting: the job obtained, if any, the ledger, and whether the thread hangs. */
  datatype Espera = Espera(trabajo: Option<Trabajo>, libro: Estado, bloqueado: bool)

  /**
   * The re-poll loop: while work is not all done and no job was obtained,
   * wait for a change and try to take a job. With no wake-up left the
   * thread waits forever.
   */
  function Reintentar(e: Estado, w: seq<Paso>): (r: Espera)
    ensures !r.bloqueado ==> r.trabajo.Some? || EstanTrabajosCompletados(r.libro)
    ensures r.trabajo.Some? ==> !r.bloqueado && r.trabajo.value.id in r.libro.realizando
    decreases |w|
  {
    if EstanTrabajosCompletados(e) then Espera(None, e, false)
    else if w == [] then Espera(None, e, true)
    else
      var (t, e') := SacarTrabajoSinRealizar(AplicarPaso(e, w[0]));
      if t.Some? then Espera(t, e', false) else Reintentar(e', w[1..])
  }

  /** The first wait, then the re-poll loop. */
  function Esperar(e: Estado, w: seq<Paso>): (r: Espera)
    ensures !r.bloqueado ==> r.trabajo.Some? || EstanTrabajosCompletados(r.libro)
  {
    if w == [] then Espera(None, e, true) else Reintentar(AplicarPaso(e, w[0]), w[1..])
  }

  /** Writing a reply: on success it is sent and the message counts as handled. */
  function Escribir(s: Sesion, m: Accion, ok: bool, fin: bool): Sesion
  {
    if ok then s.(respuestas := s.respuestas + [m], finalizado := fin, intentos := 0)
    else s.(intentos := s.intentos + 1)
  }

  function Fallo(s: Sesion): Sesion
  {
    s.(intentos := s.intentos + 1)
  }

  /** Replies with the job obtained, or with the finish action when there is none. */
  function Responder(s: Sesion, t: Option<Trabajo>, ok: bool): Sesion
  {
    if t.Some? then
      Escribir(s.(propios := s.propios + [t.value]), Accion(EnviarTrabajo, t), ok, false)
    else
      Escribir(s, Accion(FinalizarCliente, None), ok, true)
  }

  /** After the wait: hang, or reply with what the wait produced. */
  function TrasEsperar(s: Sesion, r: Espera, ok: bool): Sesion
  {
    if r.bloqueado then s.(libro := r.libro, bloqueado := true)
    else Responder(s.(libro := r.libro), r.trabajo, ok)
  }

  /** A job request: a job if one is pending, the finish action if all is done, else wait. */
  function Pedir(s: Sesion, ok: bool, w: seq<Paso>): Sesion
  {
    var (t, e) := SacarTrabajoSinRealizar(s.libro);
    if t.Some? || EstanTrabajosCompletados(e) then Responder(s.(libro := e), t, ok)
    else TrasEsperar(s, Esperar(e, w), ok)
  }

  /** A submitted job: completed if in flight; a missing or unknown job is a failure. */
  function Entregar(s: Sesion, t: Option<Trabajo>): Sesion
  {
    if t.None? then Fallo(s)
    else
      match AnhadirTrabajoRealizado(s.libro, t.value)
      case Anhadido(e) => s.(libro := e, intentos := 0)
      case NoSeEstaRealizando => Fallo(s)
  }

  /** One pass of the loop body, with the exception handler. */
  function Iteracion(s: Sesion, l: Lectura): Sesion
  {
    match l
    case FalloLectura => Fallo(s)
    case SinRespuesta => s.(bloqueado := true)
    case Recibida(a, ok, w) =>
      match a.nombre
      case PedirTrabajo => Pedir(s, ok, w)
      case EnviarTrabajoTerminado => Entregar(s, a.trabajo)
      case _ => Fallo(s)
  }

  /** The next read: the next inbound action, or a failure once the stream is exhausted. */
  function Siguiente(ls: seq<Lectura>): Lectura
  {
    if ls == [] then FalloLectura else ls[0]
  }

  function Resto(ls: seq<Lectura>): seq<Lectura>
  {
    if ls == [] then [] else ls[1..]
  }

  /** The session loop: runs while not finished, fewer than 5 failures in a row, and not hung. */
  function Bucle(s: Sesion, ls: seq<Lectura>): Sesion
    decreases |ls|, 5 - s.intentos
  {
    if s.finalizado || s.intentos >= 5 || s.bloqueado then s
    else Bucle(Iteracion(s, Siguiente(ls)), Resto(ls))
  }

  function Inicio(e: Estado): Sesion
  {
    Sesion(e, 0, false, [], false, [])
  }

  /** A whole session: the loop, then the finished-client count, unless the thread hangs. */
  function Ejecutar(e: Estado, ls: seq<Lectura>): Sesion
  {
    var s := Bucle(Inicio(e), ls);
    if s.bloqueado then s else s.(libro := Finalizar(s.libro))
  }

  /**
   * Every pass either handles its message (failures reset to 0), fails
   * (one more failure, no reply, not finished), or hangs, in the wait or in
   * a read.
   */
  lemma IteracionIntentos(s: Sesion, l: Lectura)
    requires !s.bloqueado
    ensures var r := Iteracion(s, l);
      || (r.intentos == 0 && !r.bloqueado)
      || (r.intentos == s.intentos + 1 && !r.bloqueado && r.respuestas == s.respuestas && r.finalizado == s.finalizado)
      || (r.bloqueado && r.intentos == s.intentos && r.respuestas == s.respuestas && r.finalizado == s.finalizado)
  {
    match l
    case FalloLectura =>
    case SinRespuesta =>
    case Recibida(a, ok, w) =>
      if a.nombre == PedirTrabajo {
        var (t, e) := SacarTrabajoSinRealizar(s.libro);
        if t.None? && !EstanTrabajosCompletados(e) {
          var r := Esperar(e, w);
          assert r.bloqueado ==> Iteracion(s, l) == s.(libro := r.libro, bloqueado := true);
        }
      }
  }

  /** The last reply written, if any. */
  function Ultima(rs: seq<Accion>): Option<Accion>
  {
    if rs == [] then None else Some(rs[|rs| - 1])
  }

  /**
   * The loop ends only when the session was told to finish, after five
   * failures in a row, or hung; the failure count never passes
   * 5; replies are only ever appended; and a session that was not finished
   * ends finished only right after writing the finish action.
   */
  lemma {:induction false} BucleTermina(s: Sesion, ls: seq<Lectura>)
    requires s.intentos <= 5
    ensures var r := Bucle(s, ls);
      && r.intentos <= 5
      && (!r.bloqueado ==> r.finalizado || r.intentos >= 5)
      && s.respuestas <= r.respuestas
      && (r.finalizado && !s.finalizado ==> Ultima(r.respuestas) == Some(Accion(FinalizarCliente, None)))
    decreases |ls|, 5 - s.intentos
  {
    if !(s.finalizado || s.intentos >= 5 || s.bloqueado) {
      var s' := Iteracion(s, Siguiente(ls));
      IteracionIntentos(s, Siguiente(ls));
      IteracionFinaliza(s, Siguiente(ls));
      BucleTermina(s', Resto(ls));
    }
  }

  /** A pass sets the finished flag only by writing the finish action, and only appends replies. */
  lemma IteracionFinaliza(s: Sesion, l: Lectura)
    requires !s.finalizado
    ensures s.respuestas <= Iteracion(s, l).respuestas
    ensures Iteracion(s, l).finalizado ==>
      Iteracion(s, l).respuestas == s.respuestas + [Accion(FinalizarCliente, None)]
  {
  }

  /** Failed reads and unknown or server-side action names: one more failure, nothing else. */
  lemma AccionInvalida(s: Sesion, l: Lectura)
    requires l.FalloLectura? || (l.Recibida? && (l.accion.nombre in {EnviarTrabajo, FinalizarCliente} || l.accion.nombre.Otra?))
    ensures Iteracion(s, l) == s.(intentos := s.intentos + 1)
  {
  }

  /**
   * A request while jobs are pending checks out the head of the queue and
   * replies with it; if the reply cannot be written the job stays checked
   * out and the request counts as a failure.
   */
  lemma PedirConTrabajo(s: Sesion, a: Accion, ok: bool, w: seq<Paso>)
    requires a.nombre == PedirTrabajo && HayTrabajosPorRealizar(s.libro) && !s.bloqueado
    ensures var r := Iteracion(s, Recibida(a, ok, w));
      var t := s.libro.porRealizar[0];
      && r.libro == SacarTrabajoSinRealizar(s.libro).1
      && t.id in r.libro.realizando
      && r.propios == s.propios + [t]
      && !r.bloqueado
      && (ok ==> r.respuestas == s.respuestas + [Accion(EnviarTrabajo, Some(t))] && r.intentos == 0 && !r.finalizado)
      && (!ok ==> r.respuestas == s.respuestas && r.intentos == s.intentos + 1 && r.finalizado == s.finalizado)
  {
  }

  /**
   * A request when all work is done is answered with the finish action,
   * which ends the session only if it was written.
   */
  lemma PedirCompletado(s: Sesion, a: Accion, ok: bool, w: seq<Paso>)
    requires a.nombre == PedirTrabajo && EstanTrabajosCompletados(s.libro) && !s.bloqueado
    ensures var r := Iteracion(s, Recibida(a, ok, w));
      && r.libro == s.libro
      && !r.bloqueado
      && (ok ==> r.respuestas == s.respuestas + [Accion(FinalizarCliente, None)] && r.finalizado && r.intentos == 0)
      && (!ok ==> r.respuestas == s.respuestas && r.finalizado == s.finalizado && r.intentos == s.intentos + 1)
  {
  }

  /**
   * A request with nothing pending but work still in flight waits; unless
   * it hangs, it then replies with a job it checked out or, all work being
   * done, with the finish action.
   */
  lemma PedirEsperando(s: Sesion, a: Accion, ok: bool, w: seq<Paso>)
    requires a.nombre == PedirTrabajo && !HayTrabajosPorRealizar(s.libro) && !EstanTrabajosCompletados(s.libro)
    requires !s.bloqueado
    ensures var r := Iteracion(s, Recibida(a, ok, w));
      || r.bloqueado
      || (!ok && r.respuestas == s.respuestas && r.intentos == s.intentos + 1 && r.finalizado == s.finalizado)
      || (ok && exists t: Trabajo :: t.id in r.libro.realizando && r.respuestas == s.respuestas + [Accion(EnviarTrabajo, Some(t))] && !r.finalizado)
      || (ok && EstanTrabajosCompletados(r.libro) && r.respuestas == s.respuestas + [Accion(FinalizarCliente, None)] && r.finalizado)
  {
    var r := Esperar(s.libro, w);
    if !r.bloqueado && r.trabajo.Some? {
      assert r.trabajo.value.id in r.libro.realizando by {
        if w != [] { }
      }
    }
  }

  /**
   * A submitted job is handed to the ledger and nothing is written: it is
   * completed if checked out, and otherwise, or with no job, it is a failure.
   */
  lemma EntregarTrabajo(s: Sesion, a: Accion, ok: bool, w: seq<Paso>)
    requires a.nombre == EnviarTrabajoTerminado
    ensures var r := Iteracion(s, Recibida(a, ok, w));
      && r.respuestas == s.respuestas
      && (a.trabajo.Some? && a.trabajo.value.id in s.libro.realizando ==>
            r.libro == AnhadirTrabajoRealizado(s.libro, a.trabajo.value).estado && r.intentos == 0)
      && (a.trabajo.None? || a.trabajo.value.id !in s.libro.realizando ==>
            r == s.(intentos := s.intentos + 1))
  {
  }

  /** The client counters and the server's end flag agree in two ledgers. */
  predicate MismosContadores(a: Estado, b: Estado)
  {
    a.nClientesTotales == b.nClientesTotales
    && a.nClientesFinalizados == b.nClientesFinalizados
    && a.finalizado == b.finalizado
  }

  /** The re-poll loop touches only the job collections. */
  lemma {:induction false} ReintentarContadores(e: Estado, w: seq<Paso>)
    ensures MismosContadores(e, Reintentar(e, w).libro)
    decreases |w|
  {
    if !EstanTrabajosCompletados(e) && w != [] {
      var (t, e') := SacarTrabajoSinRealizar(AplicarPaso(e, w[0]));
      if t.None? {
        ReintentarContadores(e', w[1..]);
      }
    }
  }

  /** A pass of the loop touches only the job collections. */
  lemma IteracionContadores(s: Sesion, l: Lectura)
    ensures MismosContadores(s.libro, Iteracion(s, l).libro)
  {
    if l.Recibida? && l.accion.nombre == PedirTrabajo {
      var (t, e) := SacarTrabajoSinRealizar(s.libro);
      if l.despertares != [] {
        ReintentarContadores(AplicarPaso(e, l.despertares[0]), l.despertares[1..]);
      }
    }
  }

  /** The whole loop touches only the job collections. */
  lemma {:induction false} BucleContadores(s: Sesion, ls: seq<Lectura>)
    ensures MismosContadores(s.libro, Bucle(s, ls).libro)
    decreases |ls|, 5 - s.intentos
  {
    if !(s.finalizado || s.intentos >= 5 || s.bloqueado) {
      IteracionContadores(s, Siguiente(ls));
      BucleContadores(Iteracion(s, Siguiente(ls)), Resto(ls));
    }
  }

  /**
   * A session that does not hang calls finalizar exactly once, whatever way
   * its loop ended: one more finished client, the same total, and the server
   * marked finished when that was the last client. A hung session never
   * reaches it.
   */
  lemma EjecutarFinalizaUnaVez(e: Estado, ls: seq<Lectura>)
    ensures var r := Ejecutar(e, ls);
      && r.libro.nClientesTotales == e.nClientesTotales
      && (!r.bloqueado ==>
            && r.libro.nClientesFinalizados == e.nClientesFinalizados + 1
            && (r.libro.finalizado <==> e.finalizado || e.nClientesFinalizados + 1 == e.nClientesTotales))
      && (r.bloqueado ==> MismosContadores(e, r.libro))
  {
    BucleContadores(Inicio(e), ls);
  }

  /**
   * A client that connects and never sends anything: the first read never
   * returns, so the thread hangs there, writes nothing, and never reaches
   * finalizar; the ledger is left as it was.
   */
  lemma ClienteMudo(e: Estado, ls: seq<Lectura>)
    ensures var r := Ejecutar(e, [SinRespuesta] + ls);
      && r.bloqueado && r.respuestas == [] && r.intentos == 0
      && r.libro == e
  {
    var ls' := [SinRespuesta] + ls;
    assert Siguiente(ls') == SinRespuesta;
    var s1 := Inicio(e).(bloqueado := true);
    assert Iteracion(Inicio(e), SinRespuesta) == s1;
    assert Bucle(s1, Resto(ls')) == s1;
  }

  /**
   * A job handed out is stranded when its client stops answering: with a
   * single job and a single client, the client takes the job and then every
   * read fails. The session ends after five failures, finalizar marks the
   * server finished, and the job is still in flight, never returned to the
   * queue, so the work is not complete.
   */
  lemma TrabajoAbandonado(j: Trabajo)
    ensures var e := NuevoCliente(Inicial([j]));
      var r := Ejecutar(e, [Recibida(Accion(PedirTrabajo, None), true, [])]);
      && !r.bloqueado && !r.finalizado && r.intentos == 5
      && r.respuestas == [Accion(EnviarTrabajo, Some(j))]
      && r.propios == [j]
      && j.id in r.libro.realizando
      && r.libro.porRealizar == []
      && !EstanTrabajosCompletados(r.libro)
      && PodemosFinalizar(r.libro)
  {
    UnTrabajoUnaPeticion(j);
  }

  /** The loop of that run: one job handed out, then five failed reads. */
  lemma UnTrabajoUnaPeticion(j: Trabajo)
    ensures var e := NuevoCliente(Inicial([j]));
      Bucle(Inicio(e), [Recibida(Accion(PedirTrabajo, None), true, [])])
        == Sesion(e.(porRealizar := [], realizando := map[j.id := j]), 5, false,
                  [Accion(EnviarTrabajo, Some(j))], false, [j])
  {
    var e := NuevoCliente(Inicial([j]));
    var l := Recibida(Accion(PedirTrabajo, None), true, []);
    var s1 := Iteracion(Inicio(e), l);
    assert s1 == Sesion(e.(porRealizar := [], realizando := map[j.id := j]), 0, false,
                        [Accion(EnviarTrabajo, Some(j))], false, [j]);
    var s6 := s1.(intentos := 5);
    assert Bucle(s1, []) == s6 by {
      assert Bucle(s1.(intentos := 4), []) == s6;
      assert Bucle(s1.(intentos := 3), []) == s6;
      assert Bucle(s1.(intentos := 2), []) == s6;
      assert Bucle(s1.(intentos := 1), []) == s6;
    }
  }

  /** a is what is left of b after dropping some of its first elements. */
  predicate Sufijo(a: seq<Trabajo>, b: seq<Trabajo>)
  {
    |a| <= |b| && a == b[|b| - |a|..]
  }

  lemma SufijoTransitivo(a: seq<Trabajo>, b: seq<Trabajo>, c: seq<Trabajo>)
    requires Sufijo(a, b) && Sufijo(b, c)
    ensures Sufijo(a, c)
  {
    assert c[|c| - |b|..][|b| - |a|..] == c[|c| - |a|..];
  }

  /** Taking a job, or another session's step, only drops the head of the queue. */
  lemma PasoSufijo(e: Estado, p: Paso)
    ensures Sufijo(SacarTrabajoSinRealizar(e).1.porRealizar, e.porRealizar)
    ensures Sufijo(AplicarPaso(e, p).porRealizar, e.porRealizar)
  {
  }

  lemma {:induction false} ReintentarSufijo(e: Estado, w: seq<Paso>)
    ensures Sufijo(Reintentar(e, w).libro.porRealizar, e.porRealizar)
    decreases |w|
  {
    if !EstanTrabajosCompletados(e) && w != [] {
      var e1 := AplicarPaso(e, w[0]);
      var (t, e') := SacarTrabajoSinRealizar(e1);
      PasoSufijo(e, w[0]);
      PasoSufijo(e1, w[0]);
      SufijoTransitivo(e'.porRealizar, e1.porRealizar, e.porRealizar);
      if t.None? {
        ReintentarSufijo(e', w[1..]);
        SufijoTransitivo(Reintentar(e', w[1..]).libro.porRealizar, e'.porRealizar, e.porRealizar);
      }
    }
  }

  lemma IteracionSufijo(s: Sesion, l: Lectura)
    ensures Sufijo(Iteracion(s, l).libro.porRealizar, s.libro.porRealizar)
  {
    if l.Recibida? && l.accion.nombre == PedirTrabajo {
      PedirSufijo(s, l.escrituraOk, l.despertares);
    }
  }

  lemma PedirSufijo(s: Sesion, ok: bool, w: seq<Paso>)
    ensures Sufijo(Pedir(s, ok, w).libro.porRealizar, s.libro.porRealizar)
  {
    var e := SacarTrabajoSinRealizar(s.libro).1;
    PasoSufijo(s.libro, OtroSaca);
    PedirLibro(s, ok, w);
    EsperarSufijo(e, w);
    SufijoTransitivo(Esperar(e, w).libro.porRealizar, e.porRealizar, s.libro.porRealizar);
  }

  /** The ledger a request leaves: after the take, or after the wait. */
  lemma PedirLibro(s: Sesion, ok: bool, w: seq<Paso>)
    ensures var (t, e) := SacarTrabajoSinRealizar(s.libro);
      Pedir(s, ok, w).libro == if t.Some? || EstanTrabajosCompletados(e) then e else Esperar(e, w).libro
  {
  }

  lemma EsperarSufijo(e: Estado, w: seq<Paso>)
    ensures Sufijo(Esperar(e, w).libro.porRealizar, e.porRealizar)
  {
    if w != [] {
      var e1 := AplicarPaso(e, w[0]);
      PasoSufijo(e, w[0]);
      ReintentarSufijo(e1, w[1..]);
      SufijoTransitivo(Reintentar(e1, w[1..]).libro.porRealizar, e1.porRealizar, e.porRealizar);
    }
  }

  lemma {:induction false} BucleSufijo(s: Sesion, ls: seq<Lectura>)
    ensures Sufijo(Bucle(s, ls).libro.porRealizar, s.libro.porRealizar)
    decreases |ls|, 5 - s.intentos
  {
    if !(s.finalizado || s.intentos >= 5 || s.bloqueado) {
      var s' := Iteracion(s, Siguiente(ls));
      IteracionSufijo(s, Siguiente(ls));
      BucleSufijo(s', Resto(ls));
      SufijoTransitivo(Bucle(s', Resto(ls)).libro.porRealizar, s'.libro.porRealizar, s.libro.porRealizar);
    }
  }

  /**
   * No path of a session puts a job back in the queue: whatever it reads,
   * the queue it leaves is what remains of the one it started with after
   * jobs were taken from its head.
   */
  lemma SinDevolucion(e: Estado, ls: seq<Lectura>)
    ensures Sufijo(Ejecutar(e, ls).libro.porRealizar, e.porRealizar)
  {
    BucleSufijo(Inicio(e), ls);
  }
}
