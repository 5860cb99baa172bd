/**
 * The job ledger of the server, as values: the three job collections
 * (pending queue, in-flight map, completed set ordered by position), the
 * client termination counters, and one pure transition function per
 * synchronized operation of the server. The class in module Server keeps
 * this state in fields and its methods are proved against these functions.
 */
module Ledger {

  /** A job identifier (a UUID in the source), abstracted to a number. */
  type Uuid = nat

  /** The pixel block a worker computes for one tile. */
  type Matriz = seq<seq<int>>

  /** A job: its identifier, its position in the final image, its result. */
  datatype Trabajo = Trabajo(id: Uuid, posicion: int, matriz: Matriz)

  datatype Option<T> = None | Some(value: T)

  /** The comparator the completed set is built with: three-way on posicion. */
  function Comparar(t1: Trabajo, t2: Trabajo): (c: int)
    ensures c == -1 <==> t1.posicion < t2.posicion
    ensures c == 0 <==> t1.posicion == t2.posicion
    ensures c == 1 <==> t1.posicion > t2.posicion
  {
    if t1.posicion < t2.posicion then -1
    else if t1.posicion == t2.posicion then 0
    else 1
  }

  /** Comparar is a consistent comparator: antisymmetric and transitive. */
  lemma ComparadorConsistente(a: Trabajo, b: Trabajo, c: Trabajo)
    ensures Comparar(a, b) == -Comparar(b, a)
    ensures Comparar(a, b) < 0 && Comparar(b, c) < 0 ==> Comparar(a, c) < 0
    ensures Comparar(a, b) == 0 && Comparar(b, c) == 0 ==> Comparar(a, c) == 0
  {
  }

  /** Strictly ascending position: the iteration order of the completed set under Comparar. */
  predicate Ordenado(s: seq<Trabajo>)
  {
    forall i, j :: 0 <= i < j < |s| ==> s[i].posicion < s[j].posicion
  }

  /** The completed set: a sequence kept in strictly ascending position. */
  type Ordenados = s: seq<Trabajo> | Ordenado(s) witness []

  /** The positions present in a collection of jobs. */
  function Posiciones(s: seq<Trabajo>): set<int>
  {
    set i | 0 <= i < |s| :: s[i].posicion
  }

  lemma PosicionesCons(x: Trabajo, s: seq<Trabajo>)
    ensures Posiciones([x] + s) == {x.posicion} + Posiciones(s)
  {
    var c := [x] + s;
    forall p | p in Posiciones(c) ensures p in {x.posicion} + Posiciones(s) {
      var i :| 0 <= i < |c| && c[i].posicion == p;
      if i > 0 { assert c[i] == s[i - 1]; }
    }
    forall p | p in Posiciones(s) ensures p in Posiciones(c) {
      var i :| 0 <= i < |s| && s[i].posicion == p;
      assert c[i + 1] == s[i];
    }
    assert c[0] == x;
  }

  /**
   * Adding a job to the completed set. A job whose position compares equal
   * to one already present is not added; otherwise it is inserted at its place.
   */
  function Insertar(s: seq<Trabajo>, t: Trabajo): (r: seq<Trabajo>)
    ensures forall x :: x in r ==> x in s || x == t
    ensures Ordenado(s) ==> Ordenado(r)
    decreases |s|
  {
    if s == [] then [t]
    else if Comparar(t, s[0]) < 0 then [t] + s
    else if Comparar(t, s[0]) == 0 then s
    else
      var rest := Insertar(s[1..], t);
      assert Ordenado(s) ==> forall x :: x in rest ==> s[0].posicion < x.posicion;
      [s[0]] + rest
  }

  /** Adding leaves the set of positions as before plus the job's own. */
  lemma {:induction false} InsertarPosiciones(s: seq<Trabajo>, t: Trabajo)
    ensures Posiciones(Insertar(s, t)) == Posiciones(s) + {t.posicion}
    decreases |s|
  {
    if s == [] {
      PosicionesCons(t, s);
      assert [t] + s == [t];
    } else if Comparar(t, s[0]) < 0 {
      PosicionesCons(t, s);
    } else if Comparar(t, s[0]) == 0 {
      assert s[0].posicion in Posiciones(s);
    } else {
      InsertarPosiciones(s[1..], t);
      assert s == [s[0]] + s[1..];
      PosicionesCons(s[0], s[1..]);
      PosicionesCons(s[0], Insertar(s[1..], t));
    }
  }

  /** Adding a job whose position is new adds exactly that job. */
  lemma {:induction false} InsertarNuevo(s: seq<Trabajo>, t: Trabajo)
    requires t.posicion !in Posiciones(s)
    ensures multiset(Insertar(s, t)) == multiset(s) + multiset{t}
    decreases |s|
  {
    if s != [] && Comparar(t, s[0]) > 0 {
      assert s == [s[0]] + s[1..];
      PosicionesCons(s[0], s[1..]);
      InsertarNuevo(s[1..], t);
    } else if s != [] {
      assert s[0].posicion in Posiciones(s);
    }
  }

  /** Adding a job whose position is already taken changes nothing. */
  lemma {:induction false} InsertarRepetido(s: Ordenados, t: Trabajo)
    requires t.posicion in Posiciones(s)
    ensures Insertar(s, t) == s
    decreases |s|
  {
    var i :| 0 <= i < |s| && s[i].posicion == t.posicion;
    if Comparar(t, s[0]) > 0 {
      assert i > 0 && s[1..][i - 1] == s[i];
      InsertarRepetido(s[1..], t);
    }
  }

  /**
   * The ledger: pending queue (FIFO), in-flight map keyed by job id,
   * completed set ordered by position, the number of clients accepted, the
   * number that have finished, and whether the server may stop.
   */
  datatype Estado = Estado(
    porRealizar: seq<Trabajo>,
    realizando: map<Uuid, Trabajo>,
    realizados: Ordenados,
    nClientesTotales: int,
    nClientesFinalizados: int,
    finalizado: bool)

  /** The ledger right after construction, seeded with the generated queue. */
  function Inicial(cola: seq<Trabajo>): (e: Estado)
    ensures e.porRealizar == cola && e.realizando == map[] && e.realizados == []
    ensures e.nClientesTotales == 0 && e.nClientesFinalizados == 0 && !e.finalizado
  {
    Estado(cola, map[], [], 0, 0, false)
  }

  /** The sole completion predicate: nothing pending and nothing in flight. */
  predicate EstanTrabajosCompletados(e: Estado)
  {
    |e.porRealizar| == 0 && |e.realizando| == 0
  }

  predicate HayTrabajosPorRealizar(e: Estado)
  {
    |e.porRealizar| > 0
  }

  /**
   * Take the head of the pending queue and check it out under its id;
   * no job (null in the source) and no change when the queue is empty.
   */
  function SacarTrabajoSinRealizar(e: Estado): (r: (Option<Trabajo>, Estado))
    ensures r.0.Some? <==> HayTrabajosPorRealizar(e)
    ensures r.0.None? ==> r.1 == e
    ensures r.0.Some? ==>
      && r.0.value == e.porRealizar[0]
      && r.1.porRealizar == e.porRealizar[1..]
      && r.1.realizando.Keys == e.realizando.Keys + {r.0.value.id}
      && r.1.realizando[r.0.value.id] == r.0.value
      && (forall k :: k in e.realizando && k != r.0.value.id ==> r.1.realizando[k] == e.realizando[k])
      && r.1.realizados == e.realizados
      && r.1 == e.(porRealizar := r.1.porRealizar, realizando := r.1.realizando)
  {
    if e.porRealizar == [] then (None, e)
    else
      var actual := e.porRealizar[0];
      (Some(actual), e.(porRealizar := e.porRealizar[1..], realizando := e.realizando[actual.id := actual]))
  }

  /** Outcome of adding a completed job: the new ledger, or the exception. */
  datatype Anhadido = Anhadido(estado: Estado) | NoSeEstaRealizando

  /**
   * A worker reports a job as done: accepted only when its id is checked
   * out, in which case the id leaves the in-flight map and the job enters
   * the completed set (unless a job with the same position is already there).
   */
  function AnhadirTrabajoRealizado(e: Estado, t: Trabajo): (r: Anhadido)
    ensures r.NoSeEstaRealizando? <==> t.id !in e.realizando
    ensures r.Anhadido? ==>
      && r.estado.porRealizar == e.porRealizar
      && r.estado.realizando == e.realizando - {t.id}
      && r.estado.realizados == Insertar(e.realizados, t)
      && r.estado == e.(realizando := r.estado.realizando, realizados := r.estado.realizados)
  {
    if t.id in e.realizando then
      Anhadido(e.(realizados := Insertar(e.realizados, t), realizando := e.realizando - {t.id}))
    else
      NoSeEstaRealizando
  }

  /**
   * A job that could not be completed goes back: its id leaves the
   * in-flight map (no effect if absent) and the job is appended to the
   * pending queue whether or not it was in flight.
   */
  function DevolverTrabajoRealizando(e: Estado, t: Trabajo): (r: Estado)
    ensures r.realizando.Keys == e.realizando.Keys - {t.id}
    ensures forall k :: k in r.realizando ==> r.realizando[k] == e.realizando[k]
    ensures |r.porRealizar| == |e.porRealizar| + 1 && r.porRealizar[..|e.porRealizar|] == e.porRealizar
    ensures r.porRealizar[|e.porRealizar|] == t
    ensures r == e.(porRealizar := r.porRealizar, realizando := r.realizando)
  {
    e.(realizando := e.realizando - {t.id}, porRealizar := e.porRealizar + [t])
  }

  /** A new connection has been accepted. */
  function NuevoCliente(e: Estado): (r: Estado)
    ensures r.nClientesTotales == e.nClientesTotales + 1
    ensures r == e.(nClientesTotales := r.nClientesTotales)
  {
    e.(nClientesTotales := e.nClientesTotales + 1)
  }

  /**
   * A session has ended: count it, and mark the server as able to stop when
   * every accepted client has finished. The flag is never cleared.
   */
  function Finalizar(e: Estado): (r: Estado)
    ensures r.nClientesFinalizados == e.nClientesFinalizados + 1
    ensures r.finalizado <==> e.finalizado || r.nClientesFinalizados == e.nClientesTotales
    ensures r == e.(nClientesFinalizados := r.nClientesFinalizados, finalizado := r.finalizado)
  {
    var n := e.nClientesFinalizados + 1;
    e.(nClientesFinalizados := n, finalizado := if n == e.nClientesTotales then true else e.finalizado)
  }

  predicate PodemosFinalizar(e: Estado)
  {
    e.finalizado
  }

  /** The ledger after k sessions, one after another, have finished. */
  function FinalizarVeces(e: Estado, k: nat): Estado
    decreases k
  {
    if k == 0 then e else Finalizar(FinalizarVeces(e, k - 1))
  }

  /**
   * Termination counting: with n clients accepted and fewer finished, the
   * server becomes able to stop exactly at the call that makes the finished
   * count reach n, never before, and stays so afterwards.
   */
  lemma {:induction false} ConteoDeTerminacion(e: Estado, k: nat)
    requires !e.finalizado && e.nClientesFinalizados < e.nClientesTotales
    ensures FinalizarVeces(e, k).nClientesFinalizados == e.nClientesFinalizados + k
    ensures FinalizarVeces(e, k).nClientesTotales == e.nClientesTotales
    ensures PodemosFinalizar(FinalizarVeces(e, k)) <==> e.nClientesFinalizados + k >= e.nClientesTotales
    decreases k
  {
    if k > 0 {
      ConteoDeTerminacion(e, k - 1);
    }
  }

  /** The counters never go down and the stop flag is never cleared. */
  predicate NoRetrocede(e: Estado, r: Estado)
  {
    && e.nClientesTotales <= r.nClientesTotales
    && e.nClientesFinalizados <= r.nClientesFinalizados
    && (e.finalizado ==> r.finalizado)
  }

  /** Every ledger operation keeps the counters monotone. */
  lemma ContadoresMonotonos(e: Estado, t: Trabajo)
    ensures NoRetrocede(e, SacarTrabajoSinRealizar(e).1)
    ensures AnhadirTrabajoRealizado(e, t).Anhadido? ==> NoRetrocede(e, AnhadirTrabajoRealizado(e, t).estado)
    ensures NoRetrocede(e, DevolverTrabajoRealizando(e, t))
    ensures NoRetrocede(e, NuevoCliente(e)) && NoRetrocede(e, Finalizar(e))
  {
  }
}
