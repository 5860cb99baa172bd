/**
 * The ledger's exclusivity invariant: every job id lives in exactly one of
 * the three collections, in-flight entries are keyed by their own id, and no
 * two jobs share a position. Taking, completing and returning an in-flight
 * job keep it and conserve the jobs; returning a job that is not in flight
 * does not.
 */
module Exclusividad {
  import opened Ledger

  /** The ids of a sequence of jobs. */
  function IdsDe(s: seq<Trabajo>): set<Uuid>
  {
    set i | 0 <= i < |s| :: s[i].id
  }

  /** No id occurs twice in a sequence of jobs. */
  predicate SinRepetidos(s: seq<Trabajo>)
  {
    forall i, j :: 0 <= i < j < |s| ==> s[i].id != s[j].id
  }

  /** Every in-flight entry is stored under its own id. */
  predicate ClavesPropias(m: map<Uuid, Trabajo>)
  {
    forall k :: k in m ==> m[k].id == k
  }

  /** No two distinct jobs share a position. */
  predicate PosicionesUnicas(ts: set<Trabajo>)
  {
    forall a, b :: a in ts && b in ts && a.posicion == b.posicion ==> a == b
  }

  /** Every job id the ledger knows of, wherever it is. */
  function Ids(e: Estado): set<Uuid>
  {
    IdsDe(e.porRealizar) + e.realizando.Keys + IdsDe(e.realizados)
  }

  /** Every job the ledger holds, wherever it is. */
  function Trabajos(e: Estado): set<Trabajo>
  {
    (set x | x in e.porRealizar) + e.realizando.Values + (set x | x in e.realizados)
  }

  /** The number of entries over the three collections. */
  function Total(e: Estado): nat
  {
    |e.porRealizar| + |e.realizando| + |e.realizados|
  }

  /** Each id is in exactly one collection, at most once, and positions are distinct. */
  predicate Exclusivo(e: Estado)
  {
    && SinRepetidos(e.porRealizar)
    && SinRepetidos(e.realizados)
    && ClavesPropias(e.realizando)
    && IdsDe(e.porRealizar) !! e.realizando.Keys
    && IdsDe(e.porRealizar) !! IdsDe(e.realizados)
    && IdsDe(e.realizados) !! e.realizando.Keys
    && PosicionesUnicas(Trabajos(e))
  }

  /** Splitting the head off a sequence of jobs, for ids, members and repetition. */
  lemma Cabeza(s: seq<Trabajo>)
    requires s != []
    ensures IdsDe(s) == {s[0].id} + IdsDe(s[1..])
    ensures (set x | x in s) == {s[0]} + (set x | x in s[1..])
    ensures SinRepetidos(s) <==> SinRepetidos(s[1..]) && s[0].id !in IdsDe(s[1..])
  {
    var t := s[1..];
    forall k | k in IdsDe(s) ensures k in {s[0].id} + IdsDe(t) {
      var i :| 0 <= i < |s| && s[i].id == k;
      if i > 0 { assert t[i - 1] == s[i]; }
    }
    forall k | k in IdsDe(t) ensures k in IdsDe(s) {
      var i :| 0 <= i < |t| && t[i].id == k;
      assert s[i + 1] == t[i];
    }
    assert s == [s[0]] + t;
    if SinRepetidos(s) {
      forall i, j | 0 <= i < j < |t| ensures t[i].id != t[j].id {
        assert t[i] == s[i + 1] && t[j] == s[j + 1];
      }
      forall i | 0 <= i < |t| ensures t[i].id != s[0].id {
        assert s[i + 1] == t[i];
      }
    }
    if SinRepetidos(t) && s[0].id !in IdsDe(t) {
      forall i, j | 0 <= i < j < |s| ensures s[i].id != s[j].id {
        assert s[j] == t[j - 1];
        if i > 0 { assert s[i] == t[i - 1]; }
      }
    }
  }

  /** Appending a job to a sequence adds its id. */
  lemma ColaIds(s: seq<Trabajo>, t: Trabajo)
    ensures IdsDe(s + [t]) == IdsDe(s) + {t.id}
  {
    var c := s + [t];
    forall k | k in IdsDe(c) ensures k in IdsDe(s) + {t.id} {
      var i :| 0 <= i < |c| && c[i].id == k;
      if i < |s| { assert c[i] == s[i]; }
    }
    forall k | k in IdsDe(s) ensures k in IdsDe(c) {
      var i :| 0 <= i < |s| && s[i].id == k;
      assert c[i] == s[i];
    }
    assert c[|s|] == t;
  }

  /** Appending a job whose id is absent keeps ids unrepeated. */
  lemma ColaSinRepetidos(s: seq<Trabajo>, t: Trabajo)
    requires SinRepetidos(s) && t.id !in IdsDe(s)
    ensures SinRepetidos(s + [t])
  {
    var c := s + [t];
    forall i, j | 0 <= i < j < |c| ensures c[i].id != c[j].id {
      assert c[i] == s[i];
      if j < |s| { assert c[j] == s[j]; } else { assert c[j] == t; }
    }
  }

  /** Adding a fresh key to a map of jobs. */
  lemma ValoresConClave(m: map<Uuid, Trabajo>, k: Uuid, v: Trabajo)
    requires k !in m
    ensures m[k := v].Values == m.Values + {v}
    ensures |m[k := v]| == |m| + 1
  {
    var m' := m[k := v];
    forall w | w in m'.Values ensures w in m.Values + {v} {
      var j :| j in m' && m'[j] == w;
      if j != k { assert m[j] == w; }
    }
    forall w | w in m.Values ensures w in m'.Values {
      var j :| j in m && m[j] == w;
      assert m'[j] == w;
    }
    assert m'.Keys == m.Keys + {k};
  }

  /** Removing a key from a map whose entries are keyed by their own id. */
  lemma ValoresSinClave(m: map<Uuid, Trabajo>, k: Uuid)
    requires k in m && ClavesPropias(m)
    ensures (m - {k}).Values == m.Values - {m[k]}
    ensures |m - {k}| == |m| - 1
  {
    var m' := m - {k};
    forall w | w in m'.Values ensures w in m.Values - {m[k]} {
      var j :| j in m' && m'[j] == w;
      assert m[j] == w && w.id == j && m[k].id == k;
    }
    forall w | w in m.Values - {m[k]} ensures w in m'.Values {
      var j :| j in m && m[j] == w;
      assert j != k;
      assert m'[j] == w;
    }
    assert m'.Keys == m.Keys - {k};
  }

  /** Taking one job keeps the jobs the ledger holds. */
  lemma SacarTrabajos(e: Estado)
    requires e.porRealizar != [] && e.porRealizar[0].id !in e.realizando
    ensures Trabajos(SacarTrabajoSinRealizar(e).1) == Trabajos(e)
  {
    var h := e.porRealizar[0];
    var r := SacarTrabajoSinRealizar(e).1;
    assert r.realizando == e.realizando[h.id := h];
    assert r.porRealizar == e.porRealizar[1..];
    assert r.realizados == e.realizados;
    Cabeza(e.porRealizar);
    ValoresConClave(e.realizando, h.id, h);
    calc {
      Trabajos(r);
      (set x | x in r.porRealizar) + r.realizando.Values + (set x | x in r.realizados);
      (set x | x in e.porRealizar[1..]) + (e.realizando.Values + {h}) + (set x | x in e.realizados);
    }
  }

  /** Taking one job keeps the ids the ledger knows of. */
  lemma SacarIds(e: Estado)
    requires e.porRealizar != [] && e.porRealizar[0].id !in e.realizando
    ensures Ids(SacarTrabajoSinRealizar(e).1) == Ids(e)
  {
    var h := e.porRealizar[0];
    var r := SacarTrabajoSinRealizar(e).1;
    assert r.realizando == e.realizando[h.id := h];
    assert r.porRealizar == e.porRealizar[1..];
    assert r.realizados == e.realizados;
    Cabeza(e.porRealizar);
  }

  /** Taking one job keeps the number of entries. */
  lemma SacarTotal(e: Estado)
    requires e.porRealizar != [] && e.porRealizar[0].id !in e.realizando
    ensures Total(SacarTrabajoSinRealizar(e).1) == Total(e)
  {
    var h := e.porRealizar[0];
    var r := SacarTrabajoSinRealizar(e).1;
    assert r.realizando == e.realizando[h.id := h];
    ValoresConClave(e.realizando, h.id, h);
  }

  /** Taking a job moves it from the queue to the in-flight map and loses nothing. */
  lemma SacarConserva(e: Estado)
    requires Exclusivo(e)
    ensures Exclusivo(SacarTrabajoSinRealizar(e).1)
    ensures Total(SacarTrabajoSinRealizar(e).1) == Total(e)
    ensures Ids(SacarTrabajoSinRealizar(e).1) == Ids(e)
  {
    if e.porRealizar != [] {
      var h := e.porRealizar[0];
      assert h.id in IdsDe(e.porRealizar);
      SacarExclusivo(e);
      SacarIds(e);
      SacarTotal(e);
    }
  }

  lemma SacarExclusivo(e: Estado)
    requires Exclusivo(e) && e.porRealizar != []
    ensures Exclusivo(SacarTrabajoSinRealizar(e).1)
  {
    var h := e.porRealizar[0];
    var r := SacarTrabajoSinRealizar(e).1;
    assert h.id in IdsDe(e.porRealizar);
    SacarTrabajos(e);
    Cabeza(e.porRealizar);
    assert r.realizando == e.realizando[h.id := h];
    assert r.porRealizar == e.porRealizar[1..];
    assert r.realizados == e.realizados;
  }

  /** Inserting a job at a new position adds its id, and no repeated id if it was absent. */
  lemma {:induction false} InsertarIds(s: seq<Trabajo>, t: Trabajo)
    requires t.posicion !in Posiciones(s)
    ensures IdsDe(Insertar(s, t)) == IdsDe(s) + {t.id}
    ensures SinRepetidos(s) && t.id !in IdsDe(s) ==> SinRepetidos(Insertar(s, t))
    decreases |s|
  {
    var r := Insertar(s, t);
    if s == [] {
      assert r == [t];
      Cabeza(r);
    } else if Comparar(t, s[0]) < 0 {
      assert r == [t] + s;
      Cabeza(r);
      assert r[1..] == s;
    } else {
      assert s[0].posicion in Posiciones(s);
      assert s == [s[0]] + s[1..];
      PosicionesCons(s[0], s[1..]);
      InsertarIds(s[1..], t);
      Cabeza(s);
      assert r == [s[0]] + Insertar(s[1..], t);
      Cabeza(r);
      assert r[1..] == Insertar(s[1..], t);
    }
  }

  /** The completed job's position is free in the completed set. */
  lemma PosicionLibre(e: Estado, t: Trabajo)
    requires Exclusivo(e) && t.id in e.realizando && t.posicion == e.realizando[t.id].posicion
    ensures t.posicion !in Posiciones(e.realizados)
  {
    var w := e.realizando[t.id];
    assert w in Trabajos(e);
    forall i | 0 <= i < |e.realizados| ensures e.realizados[i].posicion != t.posicion {
      var x := e.realizados[i];
      assert x in Trabajos(e);
      assert x.id in IdsDe(e.realizados);
    }
  }

  /** A checked-out job is neither pending nor completed. */
  lemma RealizandoSoloAhi(e: Estado, k: Uuid)
    requires Exclusivo(e) && k in e.realizando
    ensures e.realizando[k] !in e.porRealizar && e.realizando[k] !in e.realizados
  {
    var w := e.realizando[k];
    forall i | 0 <= i < |e.porRealizar| ensures e.porRealizar[i] != w {
      assert e.porRealizar[i].id in IdsDe(e.porRealizar);
    }
    forall i | 0 <= i < |e.realizados| ensures e.realizados[i] != w {
      assert e.realizados[i].id in IdsDe(e.realizados);
    }
  }

  /** Completing adds the submitted job to the completed set, once. */
  lemma AnhadirRealizados(e: Estado, t: Trabajo)
    requires Exclusivo(e) && t.id in e.realizando && t.posicion == e.realizando[t.id].posicion
    ensures var r := AnhadirTrabajoRealizado(e, t).estado;
      && multiset(r.realizados) == multiset(e.realizados) + multiset{t}
      && IdsDe(r.realizados) == IdsDe(e.realizados) + {t.id}
      && SinRepetidos(r.realizados)
  {
    PosicionLibre(e, t);
    InsertarNuevo(e.realizados, t);
    InsertarIds(e.realizados, t);
  }

  /** Inserting a job at a new position adds exactly that job to the members. */
  lemma InsertarConjunto(d: seq<Trabajo>, t: Trabajo)
    requires t.posicion !in Posiciones(d)
    ensures (set x | x in Insertar(d, t)) == (set x | x in d) + {t}
  {
    var d' := Insertar(d, t);
    InsertarNuevo(d, t);
    forall x | x in d ensures x in d' {
      assert multiset(d)[x] > 0;
      assert multiset(d')[x] > 0;
    }
    assert t in multiset(d');
  }

  /** Replacing w by t in the union of three sets of which only the middle one holds w. */
  lemma Reemplazo(p: set<Trabajo>, v: set<Trabajo>, d: set<Trabajo>, w: Trabajo, t: Trabajo)
    requires w !in p && w !in d
    ensures p + (v - {w}) + (d + {t}) == p + v + d - {w} + {t}
  {
  }

  /** Completing replaces the checked-out job by the submitted one among the jobs held. */
  lemma AnhadirTrabajos(e: Estado, t: Trabajo)
    requires t.id in e.realizando && ClavesPropias(e.realizando)
    requires e.realizando[t.id] !in e.porRealizar && e.realizando[t.id] !in e.realizados
    requires t.posicion !in Posiciones(e.realizados)
    ensures Trabajos(AnhadirTrabajoRealizado(e, t).estado) == Trabajos(e) - {e.realizando[t.id]} + {t}
  {
    var r := AnhadirTrabajoRealizado(e, t).estado;
    var w := e.realizando[t.id];
    var P := set x | x in e.porRealizar;
    var D := set x | x in e.realizados;
    var D' := set x | x in r.realizados;
    ValoresSinClave(e.realizando, t.id);
    assert Trabajos(r) == P + (e.realizando.Values - {w}) + D';
    InsertarConjunto(e.realizados, t);
    assert D' == D + {t};
    assert w !in P && w !in D;
    Reemplazo(P, e.realizando.Values, D, w, t);
  }

  /** Swapping a job for another at the same position keeps positions unique. */
  lemma UnicasReemplazo(ts: set<Trabajo>, w: Trabajo, t: Trabajo)
    requires PosicionesUnicas(ts) && w in ts && t.posicion == w.posicion
    ensures PosicionesUnicas(ts - {w} + {t})
  {
    var ts' := ts - {w} + {t};
    forall a, b | a in ts' && b in ts' && a.posicion == b.posicion ensures a == b {
      assert a != t ==> a in ts;
      assert b != t ==> b in ts;
    }
  }

  lemma AnhadirExclusivo(e: Estado, t: Trabajo)
    requires Exclusivo(e) && t.id in e.realizando && t.posicion == e.realizando[t.id].posicion
    ensures Exclusivo(AnhadirTrabajoRealizado(e, t).estado)
  {
    var r := AnhadirTrabajoRealizado(e, t).estado;
    var w := e.realizando[t.id];
    PosicionLibre(e, t);
    RealizandoSoloAhi(e, t.id);
    AnhadirRealizados(e, t);
    AnhadirTrabajos(e, t);
    assert w in Trabajos(e);
    UnicasReemplazo(Trabajos(e), w, t);
    assert r.realizando == e.realizando - {t.id};
    assert r.porRealizar == e.porRealizar;
  }

  /** Completing a checked-out job at a free position moves one entry and keeps the ids. */
  lemma AnhadirCuenta(e: Estado, t: Trabajo)
    requires t.id in e.realizando && ClavesPropias(e.realizando)
    requires t.posicion !in Posiciones(e.realizados)
    ensures Total(AnhadirTrabajoRealizado(e, t).estado) == Total(e)
    ensures Ids(AnhadirTrabajoRealizado(e, t).estado) == Ids(e)
  {
    var r := AnhadirTrabajoRealizado(e, t).estado;
    InsertarNuevo(e.realizados, t);
    InsertarIds(e.realizados, t);
    ValoresSinClave(e.realizando, t.id);
    assert |r.realizados| == |multiset(r.realizados)|;
    assert r.realizando == e.realizando - {t.id};
  }

  /**
   * Completing a checked-out job, submitted with the position it was handed
   * out with, is accepted, keeps exclusivity, and conserves ids and entries.
   */
  lemma AnhadirConserva(e: Estado, t: Trabajo)
    requires Exclusivo(e) && t.id in e.realizando && t.posicion == e.realizando[t.id].posicion
    ensures AnhadirTrabajoRealizado(e, t).Anhadido?
    ensures Exclusivo(AnhadirTrabajoRealizado(e, t).estado)
    ensures Total(AnhadirTrabajoRealizado(e, t).estado) == Total(e)
    ensures Ids(AnhadirTrabajoRealizado(e, t).estado) == Ids(e)
  {
    AnhadirExclusivo(e, t);
    PosicionLibre(e, t);
    AnhadirCuenta(e, t);
  }

  /** Three-set rearrangement for a job going back to the queue. */
  lemma ReemplazoCola(p: set<Trabajo>, v: set<Trabajo>, d: set<Trabajo>, w: Trabajo, t: Trabajo)
    requires w !in p && w !in d
    ensures (p + {t}) + (v - {w}) + d == p + v + d - {w} + {t}
  {
  }

  /** Returning a checked-out job replaces it in the queue's tail among the jobs held. */
  lemma DevolverTrabajos(e: Estado, t: Trabajo)
    requires t.id in e.realizando && ClavesPropias(e.realizando)
    requires e.realizando[t.id] !in e.porRealizar && e.realizando[t.id] !in e.realizados
    ensures Trabajos(DevolverTrabajoRealizando(e, t)) == Trabajos(e) - {e.realizando[t.id]} + {t}
  {
    var r := DevolverTrabajoRealizando(e, t);
    var w := e.realizando[t.id];
    var P := set x | x in e.porRealizar;
    var D := set x | x in e.realizados;
    var P' := set x | x in r.porRealizar;
    ValoresSinClave(e.realizando, t.id);
    assert P' == P + {t} by {
      assert r.porRealizar == e.porRealizar + [t];
    }
    assert Trabajos(r) == P' + (e.realizando.Values - {w}) + D;
    assert w !in P && w !in D;
    ReemplazoCola(P, e.realizando.Values, D, w, t);
  }

  lemma DevolverExclusivo(e: Estado, t: Trabajo)
    requires Exclusivo(e) && t.id in e.realizando && t.posicion == e.realizando[t.id].posicion
    ensures Exclusivo(DevolverTrabajoRealizando(e, t))
  {
    var r := DevolverTrabajoRealizando(e, t);
    var w := e.realizando[t.id];
    RealizandoSoloAhi(e, t.id);
    DevolverTrabajos(e, t);
    assert w in Trabajos(e);
    UnicasReemplazo(Trabajos(e), w, t);
    assert t.id !in IdsDe(e.porRealizar);
    ColaIds(e.porRealizar, t);
    ColaSinRepetidos(e.porRealizar, t);
    assert r.porRealizar == e.porRealizar + [t];
    assert r.realizando == e.realizando - {t.id};
  }

  /**
   * Returning a checked-out job, with the position it was handed out with,
   * keeps exclusivity and conserves ids and entries.
   */
  lemma DevolverConserva(e: Estado, t: Trabajo)
    requires Exclusivo(e) && t.id in e.realizando && t.posicion == e.realizando[t.id].posicion
    ensures Exclusivo(DevolverTrabajoRealizando(e, t))
    ensures Total(DevolverTrabajoRealizando(e, t)) == Total(e)
    ensures Ids(DevolverTrabajoRealizando(e, t)) == Ids(e)
  {
    var r := DevolverTrabajoRealizando(e, t);
    DevolverExclusivo(e, t);
    ValoresSinClave(e.realizando, t.id);
    ColaIds(e.porRealizar, t);
    assert r.porRealizar == e.porRealizar + [t];
    assert r.realizando == e.realizando - {t.id};
  }

  /**
   * Returning a job that is still pending is not a no-op: it is queued a
   * second time, so the same id is pending twice and the entries grow by one.
   */
  lemma DevolverPendienteDuplica(e: Estado, i: nat)
    requires i < |e.porRealizar| && e.porRealizar[i].id !in e.realizando
    ensures !SinRepetidos(DevolverTrabajoRealizando(e, e.porRealizar[i]).porRealizar)
    ensures !Exclusivo(DevolverTrabajoRealizando(e, e.porRealizar[i]))
    ensures Total(DevolverTrabajoRealizando(e, e.porRealizar[i])) == Total(e) + 1
  {
    var t := e.porRealizar[i];
    var r := DevolverTrabajoRealizando(e, t);
    assert r.realizando == e.realizando;
    assert r.porRealizar[i] == t && r.porRealizar[|e.porRealizar|] == t;
  }

  /** A freshly generated queue with distinct ids and positions seeds an exclusive ledger. */
  lemma InicialExclusivo(cola: seq<Trabajo>)
    requires SinRepetidos(cola) && PosicionesUnicas(set x | x in cola)
    ensures Exclusivo(Inicial(cola))
    ensures Ids(Inicial(cola)) == IdsDe(cola) && Total(Inicial(cola)) == |cola|
  {
    var e := Inicial(cola);
    assert e.realizando.Values == {};
    assert Trabajos(e) == set x | x in cola;
  }

  /**
   * With exclusivity, the completion predicate holds exactly when every job
   * the ledger knows of is in the completed set.
   */
  lemma CompletadosSiiTodosRealizados(e: Estado)
    requires Exclusivo(e)
    ensures EstanTrabajosCompletados(e) <==> Ids(e) == IdsDe(e.realizados)
  {
    var p := e.porRealizar;
    assert p != [] ==> p[0].id in IdsDe(p);
    assert e.realizando != map[] ==> exists k :: k in e.realizando.Keys;
    assert |e.realizando| == 0 <==> e.realizando == map[];
    assert p == [] ==> IdsDe(p) == {};
  }

  /**
   * Once all work is done it stays done under everything the sessions do:
   * no job can be taken, every completion is refused, and the client
   * counters do not touch the collections.
   */
  lemma CompletadoEstable(e: Estado, t: Trabajo)
    requires EstanTrabajosCompletados(e)
    ensures SacarTrabajoSinRealizar(e) == (None, e)
    ensures AnhadirTrabajoRealizado(e, t) == NoSeEstaRealizando
    ensures EstanTrabajosCompletados(NuevoCliente(e)) && EstanTrabajosCompletados(Finalizar(e))
  {
    assert e.realizando == map[];
  }
}
