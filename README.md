# Job ledger and session loop of the fractal render server

The server splits an image into tiles ("trabajos") and hands them to worker
clients over sockets. This project models its coordination core and proves
properties of it in Dafny:

- **the job ledger** kept by `Servidor`:
  - a pending FIFO queue (`trabajosPorRealizar`);
  - an in-flight map from job id to job (`trabajosRealizando`);
  - a completed set ordered by tile position (`trabajosRealizados`, a `TreeSet` built with a position comparator);
  - the client counters `nClientesTotales` and `nClientesFinalizados`;
  - the `finalizado` flag.
- **the per-connection loop** `ServidorThread.run`. It reads actions and answers job requests. It may wait for another session to change the in-flight jobs. It records submitted results, counts consecutive failures up to 5, and calls `finalizar` at the end.

Files and modules:

- `Ledger.dfy` (module `Ledger`) holds the ledger as a value (`Estado`), with one pure transition function per synchronized method.
  - The completed `TreeSet` is a sequence kept in strictly ascending position (`Ordenados`).
  - Adding to it (`Insertar`) does nothing when a job with an equal position is already there, as `TreeSet.add` does under the comparator.
- `Exclusividad.dfy` (module `Exclusividad`) holds the ledger invariant `Exclusivo`:
  - no id is repeated in the queue or in the completed set;
  - every in-flight entry is stored under its own id;
  - no id is in two of the three collections;
  - positions are distinct.

  It also holds the conservation lemmas for take, complete and return. They use `Total` (the number of entries) and `Ids` (the ids known to the ledger).
- `Server.dfy` (module `Server`): `class Servidor` keeps the ledger in fields. Each method is proved to move the fields exactly as the matching `Ledger` function does. The final merge is a loop appending each completed job's matrix to a sequence that stands for the image file.
- `Session.dfy` (module `Session`): the run loop as a state machine over what the thread reads (`Iteracion`, `Bucle`, `Ejecutar`), with lemmas about every branch.
  - The inbound stream is a sequence of reads. Each read is an action (with whether writing the reply succeeds), a failed read, or a read that never returns. The socket has no timeout, so a client that stays connected and sends nothing blocks the read forever. Once the sequence is exhausted every read fails.
  - Waiting for a change of the in-flight jobs (`esperarCambiosTrabajosRealizando`) consumes wake-ups. Each wake-up is a ledger step taken by another session: it takes a job or submits one.
  - A thread that runs out of wake-ups, or whose read never returns, would wait forever. The model marks it `bloqueado`, and such a thread never reaches `finalizar`.
- `Thread.dfy` (module `Thread`): `class ServidorThread` with the loop of `run()` as a method (`Run`), with its nested re-poll loop (`EsperarTrabajo`). It works on the shared `Servidor` object and is proved to end in the state, with the replies, that `Session.Ejecutar` gives.
- `Returning.dfy` (module `Returning`): the session with its failure path repaired (see Findings).

## Model

| member | source | states |
|---|---|---|
| Ledger.Comparar | src/Servidor.java:56-61 | the comparator answers -1, 0 or 1 exactly when the first position is smaller than, equal to or greater than the second |
| Ledger.ComparadorConsistente | src/Servidor.java:56-61 | the comparator is antisymmetric, and both "less" and "equal" are transitive, so it is a valid ordering for the completed `TreeSet` |
| Ledger.Insertar | src/Servidor.java:63 | adding to the completed set brings in no job other than the one added, and keeps the set in strictly ascending position |
| Ledger.InsertarPosiciones | src/Servidor.java:113 | after adding a job, the positions present are the old ones plus the job's own |
| Ledger.InsertarNuevo | src/Servidor.java:113 | adding a job whose position is new adds exactly that job, as a multiset |
| Ledger.InsertarRepetido | src/Servidor.java:56-64 | adding a job whose position compares equal to one already present leaves the completed set unchanged |
| Ledger.Inicial | src/Servidor.java:53-54 | the ledger right after construction: the generated queue pending, nothing in flight or completed, both counters at 0 and the flag not set |
| Ledger.SacarTrabajoSinRealizar | src/Servidor.java:95-104 | a job comes back iff the queue is non-empty. With an empty queue nothing changes. Otherwise the result is the head of the queue, the queue loses its head, the job is stored in flight under its id, no other in-flight entry changes, and the completed set and counters are kept |
| Ledger.AnhadirTrabajoRealizado | src/Servidor.java:111-122 | a submission is refused (the source throws) iff its id is not in flight. When accepted, the id leaves the in-flight map, the completed set becomes the old one with the job inserted, and the queue and counters are kept |
| Ledger.DevolverTrabajoRealizando | src/Servidor.java:128-132 | the id leaves the in-flight map (whether or not it was there), no other in-flight entry changes, and the job is appended to the tail of the queue |
| Ledger.NuevoCliente | src/Servidor.java:184-186 | the client total goes up by one and nothing else changes |
| Ledger.Finalizar | src/Servidor.java:173-179 | the finished count goes up by one. The flag becomes set exactly when it was already set or the new count equals the total. Nothing else changes |
| Ledger.ConteoDeTerminacion | src/Servidor.java:173-179 | start with n clients and fewer finished. After k calls to finalizar, k more have finished, the total is unchanged, and the server can stop iff at least n have finished: it never stops early and stays stopped |
| Ledger.ContadoresMonotonos | src/Servidor.java:95-186 | no ledger operation lowers a counter or clears the stop flag |
| Exclusividad.SacarConserva | src/Servidor.java:95-104 | taking a job keeps the exclusivity invariant and keeps the set of ids and the number of entries |
| Exclusividad.AnhadirConserva | src/Servidor.java:111-122 | submitting an in-flight job with the position it was handed out with is accepted, keeps the invariant, and keeps the ids and the number of entries |
| Exclusividad.DevolverConserva | src/Servidor.java:128-132 | returning an in-flight job with its original position keeps the invariant, the ids and the number of entries |
| Exclusividad.DevolverPendienteDuplica | src/Servidor.java:128-132 | returning a job that is pending and not in flight queues its id a second time. This breaks the invariant and adds one entry, so the operation is not a no-op for such a job |
| Exclusividad.InicialExclusivo | src/Servidor.java:53-54 | a generated queue with distinct ids and positions seeds a ledger that satisfies the invariant, holding exactly the queue's ids and one entry per job |
| Exclusividad.CompletadosSiiTodosRealizados | src/Servidor.java:79-81 | under the invariant, all work is done iff every id known to the ledger is in the completed set |
| Exclusividad.CompletadoEstable | src/Servidor.java:79-122 | once all work is done, taking yields nothing and changes nothing, every submission is refused, and the client counters keep it done |
| Server.Servidor.constructor | src/Servidor.java:53-72 | a new server holds the generated queue as pending, nothing in flight or completed, both counters at 0, and the flag not set |
| Server.Servidor.EstanTrabajosCompletados | src/Servidor.java:79-81 | true iff the pending queue and the in-flight map are both empty |
| Server.Servidor.HayTrabajosPorRealizar | src/Servidor.java:87-89 | true iff the pending queue is non-empty |
| Server.Servidor.PodemosFinalizar | src/Servidor.java:192-194 | true iff the ledger's stop flag is set |
| Server.Servidor.SacarTrabajoSinRealizar | src/Servidor.java:95-104 | the returned job and the new fields are those of `Ledger.SacarTrabajoSinRealizar` applied to the old fields |
| Server.Servidor.AnhadirTrabajoRealizado | src/Servidor.java:111-122 | accepted iff the id was in flight. If accepted, the fields move as `Ledger.AnhadirTrabajoRealizado` says. If refused, no field changes |
| Server.Servidor.DevolverTrabajoRealizando | src/Servidor.java:128-132 | the fields move as `Ledger.DevolverTrabajoRealizando` says |
| Server.Servidor.Finalizar | src/Servidor.java:173-179 | the fields move as `Ledger.Finalizar` says |
| Server.Servidor.NuevoCliente | src/Servidor.java:184-186 | the fields move as `Ledger.NuevoCliente` says |
| Server.Servidor.IntegrarTrabajosRealizados | src/Servidor.java:158-166 | the sink receives one matrix per completed job, in the completed set's order. That order is strictly ascending position |
| Session.Reintentar | src/ServidorThread.java:56-59 | the re-poll loop returns without hanging only with a job or with all work done. A job it returns is in flight afterwards |
| Session.Esperar | src/ServidorThread.java:54-59 | the wait returns without hanging only with a job or with all work done |
| Session.Pedir | src/ServidorThread.java:45-71 | the `PEDIR_TRABAJO` branch: no contract of its own; described by Session.PedirConTrabajo, Session.PedirCompletado and Session.PedirEsperando |
| Session.Entregar | src/ServidorThread.java:72-74 | the `ENVIAR_TRABAJO_TERMINADO` branch: no contract of its own; described by Session.EntregarTrabajo |
| Session.Iteracion | src/ServidorThread.java:40-83 | one pass of the loop body with its exception handler: no contract of its own; described by Session.IteracionIntentos, Session.IteracionFinaliza, Session.AccionInvalida and the three Pedir lemmas |
| Session.Bucle | src/ServidorThread.java:39-85 | the loop: no contract of its own; described by Session.BucleTermina, Session.BucleContadores and Session.SinDevolucion |
| Session.Ejecutar | src/ServidorThread.java:33-106 | the whole of `run()`: no contract of its own; described by Session.EjecutarFinalizaUnaVez, Session.SinDevolucion, Session.ClienteMudo and Session.TrabajoAbandonado |
| Session.ClienteMudo | src/ServidorThread.java:41 | a client that connects and never sends anything blocks the first read forever: the thread hangs, writes nothing, leaves the ledger as it was and never calls finalizar |
| Session.IteracionIntentos | src/ServidorThread.java:79-83 | each pass does one of three things. It handles its message and sets the failure count to 0. Or it fails, adding one failure and writing no reply without ending the session. Or it hangs, in the wait or in a read that never returns |
| Session.BucleTermina | src/ServidorThread.java:37-91 | the failure count never exceeds 5. The loop ends only finished, at 5 failures, or hung. Replies are only appended. A session becomes finished only by writing the finish action last |
| Session.IteracionFinaliza | src/ServidorThread.java:45-71 | a pass sets the finished flag only by appending the finish action to the replies |
| Session.AccionInvalida | src/ServidorThread.java:75-83 | a failed read, or any action other than a job request or a job submission, adds one failure and changes nothing else |
| Session.PedirConTrabajo | src/ServidorThread.java:46-69 | a request while jobs are pending checks out the head of the queue and replies with it. If the write fails, the job stays checked out and the pass counts as a failure |
| Session.PedirCompletado | src/ServidorThread.java:47-50 | a request when all work is done replies with the finish action and ends the session, but only if the write succeeds. A failed write is a failure and does not end the session |
| Session.PedirEsperando | src/ServidorThread.java:51-66 | a request with nothing pending but work in flight waits. Unless it hangs or its write fails (one more failure, nothing written), it replies with a job it checked out (session continues) or, with all work done, with the finish action (session ends) |
| Session.EntregarTrabajo | src/ServidorThread.java:72-74 | a submission writes nothing. If the job is in flight it is completed and the failure count resets. A missing or not-in-flight job is one more failure and changes nothing else |
| Session.BucleContadores | src/ServidorThread.java:39-85 | the loop never touches the client counters or the stop flag |
| Session.EjecutarFinalizaUnaVez | src/ServidorThread.java:101-105 | a session that does not hang (in the wait or in a read) calls finalizar exactly once, however its loop ended: one more finished client, the same total, and the flag set iff it was set already or this was the last client. A hung session changes no counter |
| Session.SinDevolucion | src/ServidorThread.java:33-106 | whatever a session reads, it puts nothing back in the queue: the final queue is what remains of the initial one after jobs were taken from its head |
| Session.TrabajoAbandonado | src/ServidorThread.java:80-105 | with one job and one client, the client takes the job and then every read fails. The session ends after 5 failures and the server is marked able to stop, while the job stays in flight and the work is never complete |
| Returning.DevolverPropios | src/Servidor.java:128-132 | handing back the held jobs removes exactly their ids from the in-flight map and leaves the completed set and counters alone |
| Returning.DevolverPropiosConserva | src/Servidor.java:128-132 | handing back held jobs that match the in-flight positions keeps the invariant, the ids and the number of entries |
| Returning.DevolverPropiosEncola | src/Servidor.java:128-132 | handing back only appends to the queue, and every held job that was in flight is queued again |
| Returning.EjecutarDevolviendo | src/ServidorThread.java:93-105 | the repaired run: no contract of its own; described by Returning.EjecutarDevolviendoLibera and Returning.TrabajoRecuperado |
| Returning.EjecutarDevolviendoLibera | src/ServidorThread.java:93-105 | the repaired session writes the same replies and counts the same clients as the original. When it ends, none of the jobs it checked out is left in flight: each one still in flight when its loop ended is back in the queue, and the queue only grew |
| Returning.TrabajoRecuperado | src/ServidorThread.java:80-105 | on the run where the original strands the job, the repaired session leaves it pending again and out of flight |
| Thread.ServidorThread.constructor | src/ServidorThread.java:23-28 | the thread works on the server it was given |
| Thread.ServidorThread.Despertar | src/ServidorThread.java:57 | a wake-up applies the other session's step to the shared server, as `Session.AplicarPaso` says |
| Thread.ServidorThread.EsperarTrabajo | src/ServidorThread.java:54-59 | the wait loop returns the job, the server state and the hang flag that `Session.Esperar` gives |
| Thread.ServidorThread.Escribir | src/ServidorThread.java:62-66 | a reply is appended and the pass counts as handled when the write succeeds. Otherwise it is one more failure, as `Session.Escribir` says |
| Thread.ServidorThread.AtenderPeticion | src/ServidorThread.java:45-71 | a job request leaves the server and the loop variables as `Session.Pedir` says |
| Thread.ServidorThread.AtenderEntrega | src/ServidorThread.java:72-74 | a submission leaves the server and the failure count as `Session.Entregar` says |
| Thread.ServidorThread.Run | src/ServidorThread.java:33-106 | the final server state, the replies and the hang flag are those of `Session.Ejecutar`. The total is unchanged, and unless the thread hangs, one more client is finished |

## Left out

- Sockets and object streams are not modelled: `ServerSocket`, `accept`, `readObject`/`writeObject` and `close` (src/ServidorThread.java:23-28, 93-99).
  - Reads are a sequence of actions, failed reads and reads that never return.
  - A read that yields something other than an action is a failed read.
  - Whether each write succeeds is part of the read it answers.
  - Replies are a sequence.
  - Closing the streams has no effect on the ledger and is left out.
- Threads, `synchronized`, `wait`/`notifyAll`/`notify` and `join` are not modelled. Each ledger method is one atomic step.
  - Other sessions act on the shared ledger only while this session waits, one step per wake-up.
  - A wake-up lost because its notification came before the wait is not modelled.
  - The `notify()` on the server object at src/Servidor.java:116-118 wakes nobody that this model contains.
- Thread.ServidorThread.Run: a thread that would wait forever, for a change of the in-flight jobs or for a read that never returns, returns with `bloqueado` set instead of never returning. So "finalizar is always called" is stated only for threads that do not hang.
- The accept loop `Servidor.run` (src/Servidor.java:199-241) and `main` are not modelled, beyond `nuevoCliente`, which is modelled.
- `Trabajo.generarCola` and the region parameters are not part of this model: they are floating-point numerics in a file that is not available.
  - The model starts from any pending sequence.
  - The queue's concrete class is not visible, so it is taken to be FIFO (`poll` takes the head, `add` appends).
- The PGM writer is not part of this model. Server.Servidor.IntegrarTrabajosRealizados appends matrices to a sequence. Opening the file, its header and its closing are not modelled.
- Job ids are UUIDs in the source and natural numbers here. Matrices are sequences of integer rows.
  - `Trabajo`'s own `equals`/`hashCode` are not visible. The completed set tells jobs apart only by the comparator, that is by position.
- The counters are Java `int`s and are unbounded integers here. Wrap-around would need more than 2^31 clients.
- Console output (`System.out.println`, `printStackTrace`) is not modelled.
- Server.Servidor.IntegrarTrabajosRealizados: exceptions from the image writer are not modelled.
- Ledger.AnhadirTrabajoRealizado: the conservation lemma (Exclusividad.AnhadirConserva) assumes the client submits a job with the position it was given. The source trusts the client for this and does not check it.

Where a method's documentation leads one to expect more than its code does, the model follows the code:

- `devolverTrabajoRealizando` is documented as returning a job "que estaba siendo realizado" (src/Servidor.java:124-127), one that is in flight. The code does not check this: it always appends the job to the queue (src/Servidor.java:128-132), so returning a job that is pending queues it twice (Exclusividad.DevolverPendienteDuplica).
- The same documentation says the method is for a job a client could not complete. No code calls it, so a failing session never hands its job back (see Findings). The session lemmas and `Thread.ServidorThread.Run` model the loop as written. The repaired session is kept apart, in module `Returning`.

## Findings

| source | as written | input that shows it | evidently intended | confidence | as-written member | corrected member |
|---|---|---|---|---|---|---|
| src/ServidorThread.java:80-105 | when the session gives up after 5 consecutive failures, it calls `finalizar` without handing back the job it holds, and no path calls `devolverTrabajoRealizando` | one job, one client: the client receives the job, then every read fails | before `finalizar`, every job the session still holds goes back to the queue with `devolverTrabajoRealizando` (src/Servidor.java:128-132), so another client can complete it | not executed | Session.TrabajoAbandonado | Returning.EjecutarDevolviendoLibera |
