/** The records the backend keeps in its six JSON collections, the request
    bodies its create and update handlers read, and how each update handler
    merges a body into a stored record. */
module Records {
  import opened Js

  const AdminRole: string := "admin"
  const ClientRole: string := "client"

  // States a stage can be given.
  const EnProceso: string := "En Proceso"
  const Completada: string := "Completada"
  const Cancelada: string := "Cancelada"
  const Pendiente: string := "Pendiente"
  // States the aggregators give a process or a client (besides EnProceso and Pendiente).
  const Completado: string := "Completado"
  const Cancelado: string := "Cancelado"
  const Nuevo: string := "Nuevo"
  // Defaults.
  const Abierto: string := "Abierto"
  const Individual: string := "Individual"
  const Desconocido: string := "Desconocido"

  /** The error responses of the handlers. */
  datatype Failure = BadRequest | Unauthorized | Forbidden | NotFound {
    function Code(): int {
      match this
      case BadRequest => 400
      case Unauthorized => 401
      case Forbidden => 403
      case NotFound => 404
    }
  }

  datatype Result<+T> = Ok(value: T) | Err(failure: Failure)

  /** The verified caller a handler receives: the payload of its token. */
  datatype Identity = Identity(username: string, role: string)

  datatype User = User(username: string, passwordHash: string, role: string)

  datatype Client = Client(
    id: int, nombre: string, email: string, telefono: string, region: string, municipio: string,
    finca: string, tipoCliente: string, embrionesDeseados: int, receptorasDisponibles: int,
    observaciones: string, estadoProceso: string)

  datatype Donor = Donor(id: int, clienteId: int, codigo: string, raza: string, edad: int, historial: string)

  datatype Recipient = Recipient(id: int, clienteId: int, codigo: string, observaciones: string)

  /** A stage embedded in a process. `fechaEstimada` is absent on the last
      stage of the template, `fechaInicio` on every stage until it first goes
      to "En Proceso". */
  datatype Stage = Stage(
    id: int, nombre: string, estado: string, fechaEstimada: Option<string>, fechaReal: string,
    observaciones: string, fechaInicio: Option<string>)

  /** A process. Its `clienteId` is whatever the create request carried (it
      is neither checked nor parsed); its `estadoProceso` is absent until a
      stage is first updated. */
  datatype Process = Process(
    id: int, clienteId: Option<int>, etapas: seq<Stage>, estadoGlobalManual: string,
    estadoProceso: Option<string>)

  /** A claim. Any field the create request left out stays absent. */
  datatype Claim = Claim(
    id: int, clienteId: Option<int>, asunto: Option<string>, motivo: Option<string>, estado: string,
    fechaCreacion: string, responsable: Option<string>, observaciones: Option<string>,
    respuesta: Option<string>)

  // Request bodies: None is a field the body does not carry.
  datatype ClientBody = ClientBody(
    nombre: Option<string>, email: Option<string>, telefono: Option<string>, region: Option<string>,
    municipio: Option<string>, finca: Option<string>, tipoCliente: Option<string>,
    embrionesDeseados: Option<int>, receptorasDisponibles: Option<int>, observaciones: Option<string>)
  datatype DonorBody = DonorBody(
    clienteId: Option<int>, codigo: Option<string>, raza: Option<string>, edad: Option<int>,
    historial: Option<string>)
  datatype RecipientBody = RecipientBody(clienteId: Option<int>, codigo: Option<string>, observaciones: Option<string>)
  datatype ProcessBody = ProcessBody(clienteId: Option<int>, estadoGlobalManual: Option<string>)
  datatype StageBody = StageBody(
    nombre: Option<string>, estado: Option<string>, fechaEstimada: Option<string>,
    fechaReal: Option<string>, observaciones: Option<string>)
  datatype ClaimBody = ClaimBody(
    clienteId: Option<int>, asunto: Option<string>, motivo: Option<string>, estado: Option<string>,
    responsable: Option<string>, observaciones: Option<string>, respuesta: Option<string>)

  // Key functions the handlers search, filter and sort by.
  function ClientId(c: Client): int { c.id }
  function ClientRef(c: Client): Option<int> { Some(c.id) }
  function ClientNombre(c: Client): string { c.nombre }
  function DonorId(d: Donor): int { d.id }
  function DonorOwner(d: Donor): Option<int> { Some(d.clienteId) }
  function RecipientId(r: Recipient): int { r.id }
  function RecipientOwner(r: Recipient): Option<int> { Some(r.clienteId) }
  function ProcessId(p: Process): int { p.id }
  function ProcessOwner(p: Process): Option<int> { p.clienteId }
  function StageId(e: Stage): int { e.id }
  function ClaimId(c: Claim): int { c.id }
  function ClaimOwner(c: Claim): Option<int> { c.clienteId }
  function Username(u: User): string { u.username }

  function PendingStage(id: int, nombre: string): Stage {
    Stage(id, nombre, Pendiente, Some(""), "", "", None)
  }

  /** The fixed twelve-stage template of a new process. */
  function InitialStages(): (r: seq<Stage>)
    ensures |r| == 12
    ensures forall i :: 0 <= i < |r| ==> r[i].id == i + 1 && r[i].estado == Pendiente
    ensures forall i :: 0 <= i < |r| ==> r[i].fechaReal == "" && r[i].observaciones == "" && r[i].fechaInicio == None
    ensures forall i :: 0 <= i < 11 ==> r[i].fechaEstimada == Some("")
    ensures r[11].fechaEstimada == None
  {
    [ PendingStage(1, "Sincronización hormonal"),
      PendingStage(2, "Aspiración de ovocitos"),
      PendingStage(3, "Transporte al laboratorio"),
      PendingStage(4, "Maduración de ovocitos"),
      PendingStage(5, "Fertilización in vitro"),
      PendingStage(6, "Cultivo e incubación"),
      PendingStage(7, "Evaluación de embriones"),
      PendingStage(8, "Preparación de transporte"),
      PendingStage(9, "Transporte de embriones"),
      PendingStage(10, "Transferencia a receptoras"),
      PendingStage(11, "Ecografía día 45"),
      PendingStage(12, "Ecografía día 90").(fechaEstimada := None) ]
  }

  /** POST /api/clientes: 400 unless the five mandatory fields are truthy;
      the optional ones get their defaults and the status starts at "Nuevo". */
  function NewClient(id: int, b: ClientBody): (r: Result<Client>)
    ensures r.Err? <==> !(Truthy(b.nombre) && Truthy(b.email) && Truthy(b.telefono) && Truthy(b.region) && Truthy(b.municipio))
    ensures r.Err? ==> r.failure == BadRequest
    ensures r.Ok? ==> r.value.id == id && r.value.estadoProceso == Nuevo
    ensures r.Ok? ==> r.value.nombre == b.nombre.value && r.value.email == b.email.value
                      && r.value.telefono == b.telefono.value && r.value.region == b.region.value
                      && r.value.municipio == b.municipio.value
    ensures r.Ok? ==> (Truthy(b.finca) ==> r.value.finca == b.finca.value) && (!Truthy(b.finca) ==> r.value.finca == "")
    ensures r.Ok? && Truthy(b.tipoCliente) ==> r.value.tipoCliente == b.tipoCliente.value
    ensures r.Ok? && !Truthy(b.tipoCliente) ==> r.value.tipoCliente == Individual
    ensures r.Ok? && TruthyNum(b.embrionesDeseados) ==> r.value.embrionesDeseados == b.embrionesDeseados.value
    ensures r.Ok? && !TruthyNum(b.embrionesDeseados) ==> r.value.embrionesDeseados == 0
    ensures r.Ok? && TruthyNum(b.receptorasDisponibles) ==> r.value.receptorasDisponibles == b.receptorasDisponibles.value
    ensures r.Ok? && !TruthyNum(b.receptorasDisponibles) ==> r.value.receptorasDisponibles == 0
    ensures r.Ok? && Truthy(b.observaciones) ==> r.value.observaciones == b.observaciones.value
    ensures r.Ok? && !Truthy(b.observaciones) ==> r.value.observaciones == ""
  {
    if !(Truthy(b.nombre) && Truthy(b.email) && Truthy(b.telefono) && Truthy(b.region) && Truthy(b.municipio)) then
      Err(BadRequest)
    else
      Ok(Client(id, b.nombre.value, b.email.value, b.telefono.value, b.region.value, b.municipio.value,
                Or(b.finca, ""), Or(b.tipoCliente, Individual), OrNum(b.embrionesDeseados, 0),
                OrNum(b.receptorasDisponibles, 0), Or(b.observaciones, ""), Nuevo))
  }

  /** PUT /api/clientes/:id: every field the body carries replaces the stored
      one, even `''` or `0`; the id and the cached status are kept. */
  function ClientMerged(c: Client, b: ClientBody): (r: Client)
    ensures r.id == c.id && r.estadoProceso == c.estadoProceso
    ensures b.nombre.Some? ==> r.nombre == b.nombre.value
    ensures b.nombre.None? ==> r.nombre == c.nombre
    ensures b.email.Some? ==> r.email == b.email.value
    ensures b.email.None? ==> r.email == c.email
    ensures b.telefono.Some? ==> r.telefono == b.telefono.value
    ensures b.telefono.None? ==> r.telefono == c.telefono
    ensures b.region.Some? ==> r.region == b.region.value
    ensures b.region.None? ==> r.region == c.region
    ensures b.municipio.Some? ==> r.municipio == b.municipio.value
    ensures b.municipio.None? ==> r.municipio == c.municipio
    ensures b.finca.Some? ==> r.finca == b.finca.value
    ensures b.finca.None? ==> r.finca == c.finca
    ensures b.tipoCliente.Some? ==> r.tipoCliente == b.tipoCliente.value
    ensures b.tipoCliente.None? ==> r.tipoCliente == c.tipoCliente
    ensures b.embrionesDeseados.Some? ==> r.embrionesDeseados == b.embrionesDeseados.value
    ensures b.embrionesDeseados.None? ==> r.embrionesDeseados == c.embrionesDeseados
    ensures b.receptorasDisponibles.Some? ==> r.receptorasDisponibles == b.receptorasDisponibles.value
    ensures b.receptorasDisponibles.None? ==> r.receptorasDisponibles == c.receptorasDisponibles
    ensures b.observaciones.Some? ==> r.observaciones == b.observaciones.value
    ensures b.observaciones.None? ==> r.observaciones == c.observaciones
    ensures b == ClientBody(None, None, None, None, None, None, None, None, None, None) ==> r == c
  {
    c.(nombre := Defined(b.nombre, c.nombre), email := Defined(b.email, c.email),
       telefono := Defined(b.telefono, c.telefono), region := Defined(b.region, c.region),
       municipio := Defined(b.municipio, c.municipio), finca := Defined(b.finca, c.finca),
       tipoCliente := Defined(b.tipoCliente, c.tipoCliente),
       embrionesDeseados := Defined(b.embrionesDeseados, c.embrionesDeseados),
       receptorasDisponibles := Defined(b.receptorasDisponibles, c.receptorasDisponibles),
       observaciones := Defined(b.observaciones, c.observaciones))
  }

  /** POST /api/donadoras: 400 unless `cliente_id`, `codigo`, `raza` and
      `edad` are truthy; `historial` defaults to `''`. */
  function NewDonor(id: int, b: DonorBody): (r: Result<Donor>)
    ensures r.Err? <==> !(TruthyNum(b.clienteId) && Truthy(b.codigo) && Truthy(b.raza) && TruthyNum(b.edad))
    ensures r.Err? ==> r.failure == BadRequest
    ensures r.Ok? ==> r.value.id == id && r.value.clienteId == b.clienteId.value && r.value.codigo == b.codigo.value
                      && r.value.raza == b.raza.value && r.value.edad == b.edad.value
    ensures r.Ok? && Truthy(b.historial) ==> r.value.historial == b.historial.value
    ensures r.Ok? && !Truthy(b.historial) ==> r.value.historial == ""
  {
    if !(TruthyNum(b.clienteId) && Truthy(b.codigo) && Truthy(b.raza) && TruthyNum(b.edad)) then Err(BadRequest)
    else Ok(Donor(id, b.clienteId.value, b.codigo.value, b.raza.value, b.edad.value, Or(b.historial, "")))
  }

  /** PUT /api/donadoras/:id: `cliente_id` and `edad` replace the stored value
      whenever supplied; `codigo`, `raza` and `historial` only when truthy. */
  function DonorMerged(d: Donor, b: DonorBody): (r: Donor)
    ensures r.id == d.id
    ensures r.clienteId == (if b.clienteId.Some? then b.clienteId.value else d.clienteId)
    ensures r.edad == (if b.edad.Some? then b.edad.value else d.edad)
    ensures Truthy(b.codigo) ==> r.codigo == b.codigo.value
    ensures !Truthy(b.codigo) ==> r.codigo == d.codigo
    ensures Truthy(b.raza) ==> r.raza == b.raza.value
    ensures !Truthy(b.raza) ==> r.raza == d.raza
    ensures Truthy(b.historial) ==> r.historial == b.historial.value
    ensures !Truthy(b.historial) ==> r.historial == d.historial
  {
    d.(clienteId := Defined(b.clienteId, d.clienteId), codigo := Or(b.codigo, d.codigo),
       raza := Or(b.raza, d.raza), edad := Defined(b.edad, d.edad), historial := Or(b.historial, d.historial))
  }

  /** POST /api/receptoras: 400 unless `cliente_id` and `codigo` are truthy. */
  function NewRecipient(id: int, b: RecipientBody): (r: Result<Recipient>)
    ensures r.Err? <==> !(TruthyNum(b.clienteId) && Truthy(b.codigo))
    ensures r.Err? ==> r.failure == BadRequest
    ensures r.Ok? ==> r.value.id == id && r.value.clienteId == b.clienteId.value && r.value.codigo == b.codigo.value
    ensures r.Ok? && Truthy(b.observaciones) ==> r.value.observaciones == b.observaciones.value
    ensures r.Ok? && !Truthy(b.observaciones) ==> r.value.observaciones == ""
  {
    if !(TruthyNum(b.clienteId) && Truthy(b.codigo)) then Err(BadRequest)
    else Ok(Recipient(id, b.clienteId.value, b.codigo.value, Or(b.observaciones, "")))
  }

  /** PUT /api/receptoras/:id: `cliente_id` replaces whenever supplied,
      `codigo` and `observaciones` only when truthy. */
  function RecipientMerged(rc: Recipient, b: RecipientBody): (r: Recipient)
    ensures r.id == rc.id
    ensures r.clienteId == (if b.clienteId.Some? then b.clienteId.value else rc.clienteId)
    ensures Truthy(b.codigo) ==> r.codigo == b.codigo.value
    ensures !Truthy(b.codigo) ==> r.codigo == rc.codigo
    ensures Truthy(b.observaciones) ==> r.observaciones == b.observaciones.value
    ensures !Truthy(b.observaciones) ==> r.observaciones == rc.observaciones
  {
    rc.(clienteId := Defined(b.clienteId, rc.clienteId), codigo := Or(b.codigo, rc.codigo),
        observaciones := Or(b.observaciones, rc.observaciones))
  }

  /** POST /api/procesos: the template stages, manual status "Pendiente", no
      derived status yet. */
  function NewProcess(id: int, clienteId: Option<int>): (r: Process)
    ensures r.id == id && r.clienteId == clienteId
    ensures |r.etapas| == 12 && forall i :: 0 <= i < 12 ==> r.etapas[i].id == i + 1 && r.etapas[i].estado == Pendiente
    ensures r.etapas == InitialStages()
    ensures r.estadoGlobalManual == Pendiente && r.estadoProceso == None
  {
    Process(id, clienteId, InitialStages(), Pendiente, None)
  }

  /** PUT /api/procesos/:id: `cliente_id` and `estado_global_manual` replace
      the stored value only when truthy; the stages and the derived status
      are kept. */
  function ProcessMerged(p: Process, b: ProcessBody): (r: Process)
    ensures r.id == p.id && r.etapas == p.etapas && r.estadoProceso == p.estadoProceso
    ensures r.clienteId == (if TruthyNum(b.clienteId) then b.clienteId else p.clienteId)
    ensures Truthy(b.estadoGlobalManual) ==> r.estadoGlobalManual == b.estadoGlobalManual.value
    ensures !Truthy(b.estadoGlobalManual) ==> r.estadoGlobalManual == p.estadoGlobalManual
  {
    p.(clienteId := OrNumOpt(b.clienteId, p.clienteId),
       estadoGlobalManual := Or(b.estadoGlobalManual, p.estadoGlobalManual))
  }

  /** PUT /api/procesos/:p/etapas/:e, the stage itself. Falsy fields keep the
      stored value. The first time the stage is "En Proceso" it gets
      `fechaInicio := today`; when it is "Completada" and had no `fechaReal`,
      `fechaReal` becomes today even over a supplied date. Dates once set are
      never cleared. */
  function StageUpdated(e: Stage, b: StageBody, today: string): (r: Stage)
    ensures r.id == e.id
    ensures r.estado == (if Truthy(b.estado) then b.estado.value else e.estado)
    ensures Truthy(b.nombre) ==> r.nombre == b.nombre.value
    ensures !Truthy(b.nombre) ==> r.nombre == e.nombre
    ensures Truthy(b.observaciones) ==> r.observaciones == b.observaciones.value
    ensures !Truthy(b.observaciones) ==> r.observaciones == e.observaciones
    ensures Truthy(b.fechaEstimada) ==> r.fechaEstimada == b.fechaEstimada
    ensures !Truthy(b.fechaEstimada) ==> r.fechaEstimada == e.fechaEstimada
    ensures r.fechaInicio == (if r.estado == EnProceso && !Truthy(e.fechaInicio) then Some(today) else e.fechaInicio)
    ensures r.estado == Completada && e.fechaReal == "" ==> r.fechaReal == today
    ensures !(r.estado == Completada && e.fechaReal == "") && Truthy(b.fechaReal) ==> r.fechaReal == b.fechaReal.value
    ensures !(r.estado == Completada && e.fechaReal == "") && !Truthy(b.fechaReal) ==> r.fechaReal == e.fechaReal
    ensures Truthy(e.fechaInicio) ==> r.fechaInicio == e.fechaInicio
    ensures e.fechaReal != "" ==> r.fechaReal != ""
  {
    var merged := e.(nombre := Or(b.nombre, e.nombre), estado := Or(b.estado, e.estado),
                     fechaEstimada := OrOpt(b.fechaEstimada, e.fechaEstimada),
                     fechaReal := Or(b.fechaReal, e.fechaReal),
                     observaciones := Or(b.observaciones, e.observaciones));
    var started := if merged.estado == EnProceso && !Truthy(e.fechaInicio)
                   then merged.(fechaInicio := Some(today)) else merged;
    if started.estado == Completada && e.fechaReal == "" then started.(fechaReal := today) else started
  }

  /** POST /api/reclamaciones: `estado` defaults to "Abierto" and the creation
      time is stamped; the other fields are stored as sent, absent or not. */
  function NewClaim(id: int, b: ClaimBody, now: string): (r: Claim)
    ensures r.id == id && r.fechaCreacion == now && r.respuesta == None
    ensures r.estado == (if Truthy(b.estado) then b.estado.value else Abierto)
    ensures r.clienteId == b.clienteId && r.asunto == b.asunto && r.motivo == b.motivo
    ensures r.responsable == b.responsable && r.observaciones == b.observaciones
  {
    Claim(id, b.clienteId, b.asunto, b.motivo, Or(b.estado, Abierto), now, b.responsable, b.observaciones, None)
  }

  /** PUT /api/reclamaciones/:id: each field replaces the stored one only when
      truthy; the id and the creation time are kept. */
  function ClaimMerged(c: Claim, b: ClaimBody): (r: Claim)
    ensures r.id == c.id && r.fechaCreacion == c.fechaCreacion
    ensures TruthyNum(b.clienteId) ==> r.clienteId == b.clienteId
    ensures !TruthyNum(b.clienteId) ==> r.clienteId == c.clienteId
    ensures Truthy(b.estado) ==> r.estado == b.estado.value
    ensures !Truthy(b.estado) ==> r.estado == c.estado
    ensures Truthy(b.asunto) ==> r.asunto == b.asunto
    ensures !Truthy(b.asunto) ==> r.asunto == c.asunto
    ensures Truthy(b.motivo) ==> r.motivo == b.motivo
    ensures !Truthy(b.motivo) ==> r.motivo == c.motivo
    ensures Truthy(b.responsable) ==> r.responsable == b.responsable
    ensures !Truthy(b.responsable) ==> r.responsable == c.responsable
    ensures Truthy(b.observaciones) ==> r.observaciones == b.observaciones
    ensures !Truthy(b.observaciones) ==> r.observaciones == c.observaciones
    ensures Truthy(b.respuesta) ==> r.respuesta == b.respuesta
    ensures !Truthy(b.respuesta) ==> r.respuesta == c.respuesta
  {
    c.(clienteId := OrNumOpt(b.clienteId, c.clienteId), asunto := OrOpt(b.asunto, c.asunto),
       motivo := OrOpt(b.motivo, c.motivo), estado := Or(b.estado, c.estado),
       responsable := OrOpt(b.responsable, c.responsable),
       observaciones := OrOpt(b.observaciones, c.observaciones), respuesta := OrOpt(b.respuesta, c.respuesta))
  }

  /** Sending the same client PUT twice changes nothing the second time. */
  lemma ClientMergeIdempotent(c: Client, b: ClientBody)
    ensures ClientMerged(ClientMerged(c, b), b) == ClientMerged(c, b)
  {
  }

  /** Sending the same donor, recipient, process or claim PUT twice changes
      nothing the second time. */
  lemma MergesIdempotent(d: Donor, db: DonorBody, rc: Recipient, rb: RecipientBody,
                         p: Process, pb: ProcessBody, c: Claim, cb: ClaimBody)
    ensures DonorMerged(DonorMerged(d, db), db) == DonorMerged(d, db)
    ensures RecipientMerged(RecipientMerged(rc, rb), rb) == RecipientMerged(rc, rb)
    ensures ProcessMerged(ProcessMerged(p, pb), pb) == ProcessMerged(p, pb)
    ensures ClaimMerged(ClaimMerged(c, cb), cb) == ClaimMerged(c, cb)
  {
  }

  /** The two merge styles differ on an explicit `''`: it clears a client's
      `observaciones` but leaves a recipient's alone. */
  lemma EmptyStringMerges(c: Client, rc: Recipient)
    requires c.observaciones != "" && rc.observaciones != ""
    ensures ClientMerged(c, ClientBody(None, None, None, None, None, None, None, None, None, Some(""))).observaciones == ""
    ensures RecipientMerged(rc, RecipientBody(None, None, Some(""))).observaciones == rc.observaciones
  {
  }

  /** Unlike the other updates, the stage update is not idempotent: a stage
      completed for the first time with a supplied `fechaReal` gets today's
      date, and sending the same request again then stores the supplied date. */
  lemma StageUpdateNotIdempotent()
    ensures var e := PendingStage(1, "Sincronización hormonal");
            var b := StageBody(None, Some(Completada), None, Some("2024-01-10"), None);
            var once := StageUpdated(e, b, "2024-02-01");
            once.fechaReal == "2024-02-01" && StageUpdated(once, b, "2024-02-01").fechaReal == "2024-01-10"
  {
  }
}
