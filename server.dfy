/** The mutating handlers of the backend. Each reads whole collections,
    changes them in memory and writes them back; here the six collections
    are the fields of a `Store`, and each handler is a method whose
    postcondition gives the whole new state. The caller is the verified
    identity the token carried; `verifyAdmin` is the 403 branch that opens
    every admin-only method. */
module Server {
  import opened Js
  import opened Collections
  import opened Records
  import opened Status

  const AdminName: string := "admin"

  /** The six collections at one instant. */
  datatype Db = Db(clients: seq<Client>, processes: seq<Process>, claims: seq<Claim>,
                   donors: seq<Donor>, recipients: seq<Recipient>, users: seq<User>)
  {
    /** Ids are unique in every collection, user names among the users, and
        stage ids within each process. Every handler keeps this. */
    ghost predicate Valid() {
      && UniqueKeys(clients, ClientId) && UniqueKeys(processes, ProcessId) && UniqueKeys(claims, ClaimId)
      && UniqueKeys(donors, DonorId) && UniqueKeys(recipients, RecipientId) && UniqueKeys(users, Username)
      && forall p :: p in processes ==> UniqueKeys(p.etapas, StageId)
    }
  }

  /** Some user is called "admin". */
  predicate HasAdmin(users: seq<User>) {
    exists j :: 0 <= j < |users| && users[j].username == AdminName
  }

  /** ensureAdminUser on the user list: adds user "admin" with role admin and
      the hash of the default password when no user has that name. */
  function WithAdmin(users: seq<User>, adminHash: string): (r: seq<User>)
    ensures HasAdmin(r)
    ensures HasAdmin(users) ==> r == users
    ensures !HasAdmin(users) ==> r == users + [User(AdminName, adminHash, AdminRole)]
  {
    if HasAdmin(users) then users
    else
      var r := users + [User(AdminName, adminHash, AdminRole)];
      assert r[|users|].username == AdminName;
      r
  }

  /** Running ensureAdminUser twice changes nothing the second time, whatever
      hash the second run would have computed. */
  lemma {:induction false} WithAdminIdempotent(users: seq<User>, hash1: string, hash2: string)
    ensures WithAdmin(WithAdmin(users, hash1), hash2) == WithAdmin(users, hash1)
  {
    var once := WithAdmin(users, hash1);
    assert HasAdmin(once);
  }

  /** Deleting the client with the largest id frees that id: the next client
      created gets it again. */
  lemma DeletedLargestIdIsReused(c1: Client, c2: Client)
    requires c1.id == 1 && c2.id == 2
    ensures NextId(RemoveKey([c1, c2], ClientId, 2), ClientId) == 2
  {
    assert RemoveKey([c1, c2], ClientId, 2) == [c1];
  }

  /** The process list with process `pi`'s stage `si` replaced by `e` and the
      process's status recomputed from its new stages. */
  function WithStage(processes: seq<Process>, pi: int, si: int, e: Stage): (r: seq<Process>)
    requires 0 <= pi < |processes| && 0 <= si < |processes[pi].etapas|
    ensures |r| == |processes|
    ensures forall k :: 0 <= k < |r| && k != pi ==> r[k] == processes[k]
    ensures r[pi].id == processes[pi].id && r[pi].clienteId == processes[pi].clienteId
    ensures r[pi].estadoGlobalManual == processes[pi].estadoGlobalManual
    ensures r[pi].etapas == processes[pi].etapas[si := e]
    ensures r[pi].estadoProceso == Some(ProcessStatus(r[pi].etapas))
  {
    var p := processes[pi];
    var etapas := p.etapas[si := e];
    processes[pi := p.(etapas := etapas, estadoProceso := Some(ProcessStatus(etapas)))]
  }

  /** The client list after the owner of a process, the first client whose
      id is `owner`, has its status recomputed over `processes`; unchanged
      when no client has that id. */
  function WithClientStatus(clients: seq<Client>, owner: Option<int>, processes: seq<Process>): (r: seq<Client>)
    ensures |r| == |clients|
    ensures (forall j :: 0 <= j < |clients| ==> Some(clients[j].id) != owner) ==> r == clients
    ensures forall k :: 0 <= k < |clients| ==> r[k].id == clients[k].id
    ensures forall k :: 0 <= k < |clients| && r[k] != clients[k] ==>
              Some(clients[k].id) == owner && forall j :: 0 <= j < k ==> Some(clients[j].id) != owner
    ensures forall k :: 0 <= k < |clients| && Some(clients[k].id) == owner
                        && (forall j :: 0 <= j < k ==> Some(clients[j].id) != owner) ==>
              r[k] == clients[k].(estadoProceso := ClientStatus(clients[k].id, processes))
  {
    var ci := IndexOf(clients, ClientRef, owner);
    if ci == -1 then clients
    else clients[ci := clients[ci].(estadoProceso := ClientStatus(clients[ci].id, processes))]
  }

  /** Putting a stage of a client's process "En Proceso" puts the client "En
      Proceso", whatever its other processes and stages. */
  lemma {:induction false} StartedStageStartsClient(processes: seq<Process>, pi: int, si: int, e: Stage, clientId: int)
    requires 0 <= pi < |processes| && 0 <= si < |processes[pi].etapas|
    requires e.estado == EnProceso && processes[pi].clienteId == Some(clientId)
    ensures ClientStatus(clientId, WithStage(processes, pi, si, e)) == EnProceso
  {
    var ps := WithStage(processes, pi, si, e);
    StartedStageDecides(processes[pi].etapas, si, e);
    assert ps[pi] in ps && OwnedBy(ps[pi], clientId);
  }

  /** Replacing a process by one with the same id and unique stage ids keeps
      every invariant. */
  lemma ProcessesReplaceKeepValid(db: Db, i: int, p: Process)
    requires db.Valid() && 0 <= i < |db.processes|
    requires p.id == db.processes[i].id && UniqueKeys(p.etapas, StageId)
    ensures db.(processes := db.processes[i := p]).Valid()
  {
    ReplaceSameKeyKeepsUnique(db.processes, ProcessId, i, p);
    forall q | q in db.processes[i := p] ensures UniqueKeys(q.etapas, StageId) {
      var k :| 0 <= k < |db.processes[i := p]| && db.processes[i := p][k] == q;
      if k != i {
        assert q in db.processes;
      }
    }
  }

  /** Updating one stage keeps every invariant: the stage keeps its id, the
      process keeps its id, and the client whose status is refreshed keeps its
      id. */
  lemma StageUpdateKeepsValid(db: Db, pi: int, si: int, e: Stage)
    requires db.Valid() && 0 <= pi < |db.processes| && 0 <= si < |db.processes[pi].etapas|
    requires e.id == db.processes[pi].etapas[si].id
    ensures var ps := WithStage(db.processes, pi, si, e);
            db.(processes := ps, clients := WithClientStatus(db.clients, db.processes[pi].clienteId, ps)).Valid()
  {
    var p := db.processes[pi];
    assert p in db.processes;
    ReplaceSameKeyKeepsUnique(p.etapas, StageId, si, e);
    var ps := WithStage(db.processes, pi, si, e);
    assert ps == db.processes[pi := ps[pi]];
    ProcessesReplaceKeepValid(db, pi, ps[pi]);
    var ci := IndexOf(db.clients, ClientRef, p.clienteId);
    if ci != -1 {
      ReplaceSameKeyKeepsUnique(db.clients, ClientId, ci, db.clients[ci].(estadoProceso := ClientStatus(db.clients[ci].id, ps)));
    }
  }

  class Store {
    var clients: seq<Client>
    var processes: seq<Process>
    var claims: seq<Claim>
    var donors: seq<Donor>
    var recipients: seq<Recipient>
    var users: seq<User>

    ghost function State(): Db
      reads this
    {
      Db(clients, processes, claims, donors, recipients, users)
    }

    /** A fresh data directory: every file is missing, and a missing file
        reads as an empty collection. */
    constructor ()
      ensures State() == Db([], [], [], [], [], []) && State().Valid()
    {
      clients, processes, claims := [], [], [];
      donors, recipients, users := [], [], [];
    }

    /** ensureAdminUser, run at start-up. `adminHash` is the hash of the
        default password "admin". */
    method EnsureAdminUser(adminHash: string)
      modifies this
      ensures State() == old(State()).(users := WithAdmin(old(users), adminHash))
      ensures HasAdmin(users)
      ensures old(HasAdmin(users)) ==> State() == old(State())
      ensures old(State().Valid()) ==> State().Valid()
    {
      if !HasAdmin(users) {
        if State().Valid() {
          AppendFreshKeepsUnique(users, Username, User(AdminName, adminHash, AdminRole));
        }
        users := users + [User(AdminName, adminHash, AdminRole)];
      }
    }

    /** POST /api/register-user: 400 when the name is taken; the role defaults
        to "client". `passwordHash` is the hash of the supplied password. */
    method RegisterUser(caller: Identity, username: string, passwordHash: string, role: Option<string>)
      returns (r: Result<Identity>)
      modifies this
      ensures caller.role != AdminRole ==> r == Err(Forbidden) && State() == old(State())
      ensures caller.role == AdminRole && (exists j :: 0 <= j < |old(users)| && old(users)[j].username == username) ==>
                r == Err(BadRequest) && State() == old(State())
      ensures caller.role == AdminRole && (forall j :: 0 <= j < |old(users)| ==> old(users)[j].username != username) ==>
                r == Ok(Identity(username, Or(role, ClientRole)))
                && State() == old(State()).(users := old(users) + [User(username, passwordHash, Or(role, ClientRole))])
      ensures old(State().Valid()) ==> State().Valid()
    {
      if caller.role != AdminRole {
        return Err(Forbidden);
      }
      if IndexOf(users, Username, username) != -1 {
        return Err(BadRequest);
      }
      var user := User(username, passwordHash, Or(role, ClientRole));
      if State().Valid() {
        AppendFreshKeepsUnique(users, Username, user);
      }
      users := users + [user];
      r := Ok(Identity(user.username, user.role));
    }

    /** DELETE /api/users/:username: 404 when no user has the name; otherwise
        every user with it is removed. "admin" itself can be deleted; only the
        next start-up puts it back. */
    method DeleteUser(caller: Identity, username: string) returns (r: Result<()>)
      modifies this
      ensures caller.role != AdminRole ==> r == Err(Forbidden) && State() == old(State())
      ensures caller.role == AdminRole && (forall j :: 0 <= j < |old(users)| ==> old(users)[j].username != username) ==>
                r == Err(NotFound) && State() == old(State())
      ensures caller.role == AdminRole && (exists j :: 0 <= j < |old(users)| && old(users)[j].username == username) ==>
                r == Ok(()) && State() == old(State()).(users := RemoveKey(old(users), Username, username))
      ensures old(State().Valid()) ==> State().Valid()
    {
      if caller.role != AdminRole {
        return Err(Forbidden);
      }
      var kept := RemoveKey(users, Username, username);
      if |kept| == |users| {
        return Err(NotFound);
      }
      if State().Valid() {
        RemoveKeyKeepsUnique(users, Username, username, Username);
      }
      users := kept;
      r := Ok(());
    }

    /** POST /api/clientes. */
    method CreateClient(caller: Identity, b: ClientBody) returns (r: Result<Client>)
      modifies this
      ensures caller.role != AdminRole ==> r == Err(Forbidden) && State() == old(State())
      ensures caller.role == AdminRole ==> r == NewClient(NextId(old(clients), ClientId), b)
      ensures r.Err? ==> State() == old(State())
      ensures r.Ok? ==> State() == old(State()).(clients := old(clients) + [r.value])
                        && forall j :: 0 <= j < |old(clients)| ==> old(clients)[j].id < r.value.id
      ensures old(State().Valid()) ==> State().Valid()
    {
      if caller.role != AdminRole {
        return Err(Forbidden);
      }
      r := NewClient(NextId(clients, ClientId), b);
      if r.Ok? {
        if State().Valid() {
          AppendFreshKeepsUnique(clients, ClientId, r.value);
        }
        clients := clients + [r.value];
      }
    }

    /** PUT /api/clientes/:id. */
    method UpdateClient(caller: Identity, id: int, b: ClientBody) returns (r: Result<Client>)
      modifies this
      ensures caller.role != AdminRole ==> r == Err(Forbidden) && State() == old(State())
      ensures caller.role == AdminRole && IndexOf(old(clients), ClientId, id) == -1 ==>
                r == Err(NotFound) && State() == old(State())
      ensures caller.role == AdminRole && IndexOf(old(clients), ClientId, id) != -1 ==>
                var i := IndexOf(old(clients), ClientId, id);
                r == Ok(ClientMerged(old(clients)[i], b))
                && State() == old(State()).(clients := old(clients)[i := r.value])
      ensures old(State().Valid()) ==> State().Valid()
    {
      if caller.role != AdminRole {
        return Err(Forbidden);
      }
      var i := IndexOf(clients, ClientId, id);
      if i == -1 {
        return Err(NotFound);
      }
      var c := ClientMerged(clients[i], b);
      if State().Valid() {
        ReplaceSameKeyKeepsUnique(clients, ClientId, i, c);
      }
      clients := clients[i := c];
      r := Ok(c);
    }

    /** DELETE /api/clientes/:id: 404 when no client has the id; otherwise
        the client goes, and so do its processes and its claims. Its donors
        and recipients stay. */
    method DeleteClient(caller: Identity, id: int) returns (r: Result<()>)
      modifies this
      ensures caller.role != AdminRole ==> r == Err(Forbidden) && State() == old(State())
      ensures caller.role == AdminRole && (forall j :: 0 <= j < |old(clients)| ==> old(clients)[j].id != id) ==>
                r == Err(NotFound) && State() == old(State())
      ensures caller.role == AdminRole && (exists j :: 0 <= j < |old(clients)| && old(clients)[j].id == id) ==>
                r == Ok(())
                && State() == old(State()).(clients := RemoveKey(old(clients), ClientId, id),
                                            processes := RemoveKey(old(processes), ProcessOwner, Some(id)),
                                            claims := RemoveKey(old(claims), ClaimOwner, Some(id)))
      ensures old(State().Valid()) ==> State().Valid()
    {
      if caller.role != AdminRole {
        return Err(Forbidden);
      }
      var kept := RemoveKey(clients, ClientId, id);
      if |kept| == |clients| {
        return Err(NotFound);
      }
      if State().Valid() {
        RemoveKeyKeepsUnique(clients, ClientId, id, ClientId);
      }
      if State().Valid() {
        RemoveKeyKeepsUnique(processes, ProcessOwner, Some(id), ProcessId);
      }
      if State().Valid() {
        RemoveKeyKeepsUnique(claims, ClaimOwner, Some(id), ClaimId);
      }
      clients := kept;
      processes := RemoveKey(processes, ProcessOwner, Some(id));
      claims := RemoveKey(claims, ClaimOwner, Some(id));
      r := Ok(());
    }

    /** POST /api/donadoras. */
    method CreateDonor(caller: Identity, b: DonorBody) returns (r: Result<Donor>)
      modifies this
      ensures caller.role != AdminRole ==> r == Err(Forbidden) && State() == old(State())
      ensures caller.role == AdminRole ==> r == NewDonor(NextId(old(donors), DonorId), b)
      ensures r.Err? ==> State() == old(State())
      ensures r.Ok? ==> State() == old(State()).(donors := old(donors) + [r.value])
                        && forall j :: 0 <= j < |old(donors)| ==> old(donors)[j].id < r.value.id
      ensures old(State().Valid()) ==> State().Valid()
    {
      if caller.role != AdminRole {
        return Err(Forbidden);
      }
      r := NewDonor(NextId(donors, DonorId), b);
      if r.Ok? {
        if State().Valid() {
          AppendFreshKeepsUnique(donors, DonorId, r.value);
        }
        donors := donors + [r.value];
      }
    }

    /** PUT /api/donadoras/:id. (The backend has no route to delete a donor.) */
    method UpdateDonor(caller: Identity, id: int, b: DonorBody) returns (r: Result<Donor>)
      modifies this
      ensures caller.role != AdminRole ==> r == Err(Forbidden) && State() == old(State())
      ensures caller.role == AdminRole && IndexOf(old(donors), DonorId, id) == -1 ==>
                r == Err(NotFound) && State() == old(State())
      ensures caller.role == AdminRole && IndexOf(old(donors), DonorId, id) != -1 ==>
                var i := IndexOf(old(donors), DonorId, id);
                r == Ok(DonorMerged(old(donors)[i], b))
                && State() == old(State()).(donors := old(donors)[i := r.value])
      ensures old(State().Valid()) ==> State().Valid()
    {
      if caller.role != AdminRole {
        return Err(Forbidden);
      }
      var i := IndexOf(donors, DonorId, id);
      if i == -1 {
        return Err(NotFound);
      }
      var d := DonorMerged(donors[i], b);
      if State().Valid() {
        ReplaceSameKeyKeepsUnique(donors, DonorId, i, d);
      }
      donors := donors[i := d];
      r := Ok(d);
    }

    /** POST /api/receptoras. */
    method CreateRecipient(caller: Identity, b: RecipientBody) returns (r: Result<Recipient>)
      modifies this
      ensures caller.role != AdminRole ==> r == Err(Forbidden) && State() == old(State())
      ensures caller.role == AdminRole ==> r == NewRecipient(NextId(old(recipients), RecipientId), b)
      ensures r.Err? ==> State() == old(State())
      ensures r.Ok? ==> State() == old(State()).(recipients := old(recipients) + [r.value])
                        && forall j :: 0 <= j < |old(recipients)| ==> old(recipients)[j].id < r.value.id
      ensures old(State().Valid()) ==> State().Valid()
    {
      if caller.role != AdminRole {
        return Err(Forbidden);
      }
      r := NewRecipient(NextId(recipients, RecipientId), b);
      if r.Ok? {
        if State().Valid() {
          AppendFreshKeepsUnique(recipients, RecipientId, r.value);
        }
        recipients := recipients + [r.value];
      }
    }

    /** PUT /api/receptoras/:id. */
    method UpdateRecipient(caller: Identity, id: int, b: RecipientBody) returns (r: Result<Recipient>)
      modifies this
      ensures caller.role != AdminRole ==> r == Err(Forbidden) && State() == old(State())
      ensures caller.role == AdminRole && IndexOf(old(recipients), RecipientId, id) == -1 ==>
                r == Err(NotFound) && State() == old(State())
      ensures caller.role == AdminRole && IndexOf(old(recipients), RecipientId, id) != -1 ==>
                var i := IndexOf(old(recipients), RecipientId, id);
                r == Ok(RecipientMerged(old(recipients)[i], b))
                && State() == old(State()).(recipients := old(recipients)[i := r.value])
      ensures old(State().Valid()) ==> State().Valid()
    {
      if caller.role != AdminRole {
        return Err(Forbidden);
      }
      var i := IndexOf(recipients, RecipientId, id);
      if i == -1 {
        return Err(NotFound);
      }
      var rc := RecipientMerged(recipients[i], b);
      if State().Valid() {
        ReplaceSameKeyKeepsUnique(recipients, RecipientId, i, rc);
      }
      recipients := recipients[i := rc];
      r := Ok(rc);
    }

    /** DELETE /api/receptoras/:id. */
    method DeleteRecipient(caller: Identity, id: int) returns (r: Result<()>)
      modifies this
      ensures caller.role != AdminRole ==> r == Err(Forbidden) && State() == old(State())
      ensures caller.role == AdminRole && (forall j :: 0 <= j < |old(recipients)| ==> old(recipients)[j].id != id) ==>
                r == Err(NotFound) && State() == old(State())
      ensures caller.role == AdminRole && (exists j :: 0 <= j < |old(recipients)| && old(recipients)[j].id == id) ==>
                r == Ok(()) && State() == old(State()).(recipients := RemoveKey(old(recipients), RecipientId, id))
      ensures old(State().Valid()) ==> State().Valid()
    {
      if caller.role != AdminRole {
        return Err(Forbidden);
      }
      var kept := RemoveKey(recipients, RecipientId, id);
      if |kept| == |recipients| {
        return Err(NotFound);
      }
      if State().Valid() {
        RemoveKeyKeepsUnique(recipients, RecipientId, id, RecipientId);
      }
      recipients := kept;
      r := Ok(());
    }

    /** POST /api/procesos: `clienteId` is stored as sent, unchecked. */
    method CreateProcess(caller: Identity, clienteId: Option<int>) returns (r: Result<Process>)
      modifies this
      ensures caller.role != AdminRole ==> r == Err(Forbidden) && State() == old(State())
      ensures caller.role == AdminRole ==>
                r == Ok(NewProcess(NextId(old(processes), ProcessId), clienteId))
                && State() == old(State()).(processes := old(processes) + [r.value])
                && forall j :: 0 <= j < |old(processes)| ==> old(processes)[j].id < r.value.id
      ensures old(State().Valid()) ==> State().Valid()
    {
      if caller.role != AdminRole {
        return Err(Forbidden);
      }
      var p := NewProcess(NextId(processes, ProcessId), clienteId);
      assert UniqueKeys(p.etapas, StageId);
      if State().Valid() {
        AppendFreshKeepsUnique(processes, ProcessId, p);
      }
      processes := processes + [p];
      r := Ok(p);
    }

    /** PUT /api/procesos/:id. The derived statuses are not recomputed. */
    method UpdateProcess(caller: Identity, id: int, b: ProcessBody) returns (r: Result<Process>)
      modifies this
      ensures caller.role != AdminRole ==> r == Err(Forbidden) && State() == old(State())
      ensures caller.role == AdminRole && IndexOf(old(processes), ProcessId, id) == -1 ==>
                r == Err(NotFound) && State() == old(State())
      ensures caller.role == AdminRole && IndexOf(old(processes), ProcessId, id) != -1 ==>
                var i := IndexOf(old(processes), ProcessId, id);
                r == Ok(ProcessMerged(old(processes)[i], b))
                && State() == old(State()).(processes := old(processes)[i := r.value])
      ensures old(State().Valid()) ==> State().Valid()
    {
      if caller.role != AdminRole {
        return Err(Forbidden);
      }
      var i := IndexOf(processes, ProcessId, id);
      if i == -1 {
        return Err(NotFound);
      }
      var p := ProcessMerged(processes[i], b);
      if State().Valid() {
        assert processes[i] in processes;
        ProcessesReplaceKeepValid(State(), i, p);
      }
      processes := processes[i := p];
      r := Ok(p);
    }

    /** PUT /api/procesos/:procesoId/etapas/:etapaId: 404 when the process or
        the stage is missing. Otherwise only that stage of that process
        changes, the process's status is recomputed from its new stages, and
        then the status of the client owning the process, if there is one, is
        recomputed from the updated process list. Returns the new stage. */
    method UpdateStage(caller: Identity, procesoId: int, etapaId: int, b: StageBody, today: string)
      returns (r: Result<Stage>)
      modifies this
      ensures caller.role != AdminRole ==> r == Err(Forbidden) && State() == old(State())
      ensures caller.role == AdminRole && IndexOf(old(processes), ProcessId, procesoId) == -1 ==>
                r == Err(NotFound) && State() == old(State())
      ensures caller.role == AdminRole && IndexOf(old(processes), ProcessId, procesoId) != -1 ==>
                var pi := IndexOf(old(processes), ProcessId, procesoId);
                var p := old(processes)[pi];
                var si := IndexOf(p.etapas, StageId, etapaId);
                (si == -1 ==> r == Err(NotFound) && State() == old(State()))
                && (si != -1 ==>
                      var e := StageUpdated(p.etapas[si], b, today);
                      var ps := WithStage(old(processes), pi, si, e);
                      r == Ok(e)
                      && State() == old(State()).(processes := ps, clients := WithClientStatus(old(clients), p.clienteId, ps)))
      ensures old(State().Valid()) ==> State().Valid()
    {
      if caller.role != AdminRole {
        return Err(Forbidden);
      }
      var pi := IndexOf(processes, ProcessId, procesoId);
      if pi == -1 {
        return Err(NotFound);
      }
      var p := processes[pi];
      var si := IndexOf(p.etapas, StageId, etapaId);
      if si == -1 {
        return Err(NotFound);
      }
      var e := StageUpdated(p.etapas[si], b, today);
      var ps := WithStage(processes, pi, si, e);
      var cs := WithClientStatus(clients, p.clienteId, ps);
      if State().Valid() {
        StageUpdateKeepsValid(State(), pi, si, e);
      }
      processes, clients := ps, cs;
      r := Ok(e);
    }

    /** DELETE /api/procesos/:id. The owning client's cached status is left
        as it was. */
    method DeleteProcess(caller: Identity, id: int) returns (r: Result<()>)
      modifies this
      ensures caller.role != AdminRole ==> r == Err(Forbidden) && State() == old(State())
      ensures caller.role == AdminRole && (forall j :: 0 <= j < |old(processes)| ==> old(processes)[j].id != id) ==>
                r == Err(NotFound) && State() == old(State())
      ensures caller.role == AdminRole && (exists j :: 0 <= j < |old(processes)| && old(processes)[j].id == id) ==>
                r == Ok(()) && State() == old(State()).(processes := RemoveKey(old(processes), ProcessId, id))
      ensures old(State().Valid()) ==> State().Valid()
    {
      if caller.role != AdminRole {
        return Err(Forbidden);
      }
      var kept := RemoveKey(processes, ProcessId, id);
      if |kept| == |processes| {
        return Err(NotFound);
      }
      if State().Valid() {
        RemoveKeyKeepsUnique(processes, ProcessId, id, ProcessId);
      }
      processes := kept;
      r := Ok(());
    }

    /** POST /api/reclamaciones: open to every authenticated role, with no
        check on the body. `now` is the creation time stamp. */
    method CreateClaim(b: ClaimBody, now: string) returns (r: Claim)
      modifies this
      ensures r == NewClaim(NextId(old(claims), ClaimId), b, now)
      ensures State() == old(State()).(claims := old(claims) + [r])
      ensures forall j :: 0 <= j < |old(claims)| ==> old(claims)[j].id < r.id
      ensures old(State().Valid()) ==> State().Valid()
    {
      r := NewClaim(NextId(claims, ClaimId), b, now);
      if State().Valid() {
        AppendFreshKeepsUnique(claims, ClaimId, r);
      }
      claims := claims + [r];
    }

    /** PUT /api/reclamaciones/:id. */
    method UpdateClaim(caller: Identity, id: int, b: ClaimBody) returns (r: Result<Claim>)
      modifies this
      ensures caller.role != AdminRole ==> r == Err(Forbidden) && State() == old(State())
      ensures caller.role == AdminRole && IndexOf(old(claims), ClaimId, id) == -1 ==>
                r == Err(NotFound) && State() == old(State())
      ensures caller.role == AdminRole && IndexOf(old(claims), ClaimId, id) != -1 ==>
                var i := IndexOf(old(claims), ClaimId, id);
                r == Ok(ClaimMerged(old(claims)[i], b))
                && State() == old(State()).(claims := old(claims)[i := r.value])
      ensures old(State().Valid()) ==> State().Valid()
    {
      if caller.role != AdminRole {
        return Err(Forbidden);
      }
      var i := IndexOf(claims, ClaimId, id);
      if i == -1 {
        return Err(NotFound);
      }
      var c := ClaimMerged(claims[i], b);
      if State().Valid() {
        ReplaceSameKeyKeepsUnique(claims, ClaimId, i, c);
      }
      claims := claims[i := c];
      r := Ok(c);
    }

    /** DELETE /api/reclamaciones/:id. */
    method DeleteClaim(caller: Identity, id: int) returns (r: Result<()>)
      modifies this
      ensures caller.role != AdminRole ==> r == Err(Forbidden) && State() == old(State())
      ensures caller.role == AdminRole && (forall j :: 0 <= j < |old(claims)| ==> old(claims)[j].id != id) ==>
                r == Err(NotFound) && State() == old(State())
      ensures caller.role == AdminRole && (exists j :: 0 <= j < |old(claims)| && old(claims)[j].id == id) ==>
                r == Ok(()) && State() == old(State()).(claims := RemoveKey(old(claims), ClaimId, id))
      ensures old(State().Valid()) ==> State().Valid()
    {
      if caller.role != AdminRole {
        return Err(Forbidden);
      }
      var kept := RemoveKey(claims, ClaimId, id);
      if |kept| == |claims| {
        return Err(NotFound);
      }
      if State().Valid() {
        RemoveKeyKeepsUnique(claims, ClaimId, id, ClaimId);
      }
      claims := kept;
      r := Ok(());
    }
  }
}
