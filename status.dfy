/** The two status roll-ups of the backend: a process's status from the
    states of its stages, and a client's status from the statuses of its
    processes. Both apply their rules in a fixed order, the first that holds
    deciding. */
module Status {
  import opened Js
  import opened Collections
  import opened Records

  /** `etapas.some(e => e.estado === s)`. */
  function AnyStage(etapas: seq<Stage>, s: string): (r: bool)
    ensures r <==> exists i :: 0 <= i < |etapas| && etapas[i].estado == s
  {
    if |etapas| == 0 then false
    else etapas[0].estado == s || AnyStage(etapas[1..], s)
  }

  /** `etapas.every(e => e.estado === s)`. */
  function EveryStage(etapas: seq<Stage>, s: string): (r: bool)
    ensures r <==> forall i :: 0 <= i < |etapas| ==> etapas[i].estado == s
  {
    if |etapas| == 0 then true
    else etapas[0].estado == s && EveryStage(etapas[1..], s)
  }

  /** calculateProcessStatus: any stage "En Proceso" wins; otherwise all
      "Completada" (vacuously so for no stages) gives "Completado"; otherwise
      any "Cancelada" gives "Cancelado"; otherwise "Pendiente". */
  function ProcessStatus(etapas: seq<Stage>): (r: string)
    ensures r == EnProceso || r == Completado || r == Cancelado || r == Pendiente
    ensures r == EnProceso <==> exists i :: 0 <= i < |etapas| && etapas[i].estado == EnProceso
    ensures r == Completado <==> forall i :: 0 <= i < |etapas| ==> etapas[i].estado == Completada
    ensures r == Cancelado <==>
              (forall i :: 0 <= i < |etapas| ==> etapas[i].estado != EnProceso)
              && (exists i :: 0 <= i < |etapas| && etapas[i].estado != Completada)
              && (exists i :: 0 <= i < |etapas| && etapas[i].estado == Cancelada)
    ensures r == Pendiente <==>
              (exists i :: 0 <= i < |etapas| && etapas[i].estado != Completada)
              && (forall i :: 0 <= i < |etapas| ==> etapas[i].estado != EnProceso && etapas[i].estado != Cancelada)
  {
    if AnyStage(etapas, EnProceso) then EnProceso
    else if EveryStage(etapas, Completada) then Completado
    else if AnyStage(etapas, Cancelada) then Cancelado
    else Pendiente
  }

  /** `processes.some(p => calculateProcessStatus(p.etapas) === s)`. */
  function AnyProcess(processes: seq<Process>, s: string): (r: bool)
    ensures r <==> exists p :: p in processes && ProcessStatus(p.etapas) == s
  {
    if |processes| == 0 then false
    else ProcessStatus(processes[0].etapas) == s || AnyProcess(processes[1..], s)
  }

  /** `processes.every(p => calculateProcessStatus(p.etapas) === s)`. */
  function EveryProcess(processes: seq<Process>, s: string): (r: bool)
    ensures r <==> forall p :: p in processes ==> ProcessStatus(p.etapas) == s
  {
    if |processes| == 0 then true
    else ProcessStatus(processes[0].etapas) == s && EveryProcess(processes[1..], s)
  }

  /** A process of client `clientId` (`p.cliente_id === clientId`). */
  predicate OwnedBy(p: Process, clientId: int) {
    p.clienteId == Some(clientId)
  }

  /** calculateClientStatus over the given process list: "Nuevo" for a client
      with no process; otherwise any process "En Proceso" wins; otherwise all
      "Completado" gives "Completado"; the "Cancelado" rule looks for a process
      status "Cancelada", which no process has, so it never fires and a client
      whose processes are cancelled is "Pendiente". */
  function ClientStatus(clientId: int, processes: seq<Process>): (r: string)
    ensures r == Nuevo || r == EnProceso || r == Completado || r == Pendiente
    ensures r == Nuevo <==> forall p :: p in processes ==> !OwnedBy(p, clientId)
    ensures r == EnProceso <==> exists p :: p in processes && OwnedBy(p, clientId) && ProcessStatus(p.etapas) == EnProceso
    ensures r == Completado <==>
              (exists p :: p in processes && OwnedBy(p, clientId))
              && forall p :: p in processes && OwnedBy(p, clientId) ==> ProcessStatus(p.etapas) == Completado
  {
    var mine := KeepKey(processes, ProcessOwner, Some(clientId));
    if |mine| == 0 then Nuevo
    else
      assert mine[0] in mine;
      if AnyProcess(mine, EnProceso) then EnProceso
      else if EveryProcess(mine, Completado) then Completado
      else if AnyProcess(mine, Cancelada) then Cancelado
      else Pendiente
  }

  /** The client status is never "Cancelado", whatever the processes. */
  lemma ClientNeverCancelled(clientId: int, processes: seq<Process>)
    ensures ClientStatus(clientId, processes) != Cancelado
  {
  }

  /** A client whose every process is cancelled is reported "Pendiente". */
  lemma {:induction false} CancelledProcessesLeaveClientPending(clientId: int, processes: seq<Process>, q: Process)
    requires q in processes && OwnedBy(q, clientId)
    requires forall p :: p in processes && OwnedBy(p, clientId) ==> ProcessStatus(p.etapas) == Cancelado
    ensures ClientStatus(clientId, processes) == Pendiente
  {
    assert ProcessStatus(q.etapas) == Cancelado;
  }

  /** A new process is "Pendiente": no stage has started, none is completed. */
  lemma NewProcessPending(id: int, clienteId: Option<int>)
    ensures ProcessStatus(NewProcess(id, clienteId).etapas) == Pendiente
  {
    var etapas := NewProcess(id, clienteId).etapas;
    assert etapas[0].estado != Completada;
  }

  /** One stage "En Proceso" decides the process status whatever the others. */
  lemma {:induction false} StartedStageDecides(etapas: seq<Stage>, i: int, e: Stage)
    requires 0 <= i < |etapas| && e.estado == EnProceso
    ensures ProcessStatus(etapas[i := e]) == EnProceso
  {
    assert etapas[i := e][i].estado == EnProceso;
  }
}
