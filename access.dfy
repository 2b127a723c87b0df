/** The read-only handlers: the list endpoints with their role scoping, the
    look-ups by id, the user list and the login check. Each reads whole
    collections and changes none, so each is a function of the collections. */
module Access {
  import opened Js
  import opened Collections
  import opened Records

  /** A row as a list endpoint returns it: with the name of its client. */
  datatype Listed<T> = Listed(row: T, clienteNombre: string)

  /** `clients.find(c => c.nombre === username)`: a client-role user is linked
      to the first client whose name equals the user name. */
  function LinkedClient(clients: seq<Client>, username: string): (r: Option<Client>)
    ensures r.None? <==> forall j :: 0 <= j < |clients| ==> clients[j].nombre != username
    ensures r.Some? ==> exists j :: 0 <= j < |clients| && clients[j] == r.value && r.value.nombre == username
                                    && forall k :: 0 <= k < j ==> clients[k].nombre != username
  {
    var i := IndexOf(clients, ClientNombre, username);
    if i == -1 then None else Some(clients[i])
  }

  /** `client ? client.nombre : 'Desconocido'` for the first client whose id
      is `owner`. */
  function ClientNameOf(clients: seq<Client>, owner: Option<int>): (name: string)
    ensures (forall j :: 0 <= j < |clients| ==> Some(clients[j].id) != owner) ==> name == Desconocido
    ensures forall j :: (0 <= j < |clients| && Some(clients[j].id) == owner
                         && forall k :: 0 <= k < j ==> Some(clients[k].id) != owner) ==> name == clients[j].nombre
  {
    var i := IndexOf(clients, ClientRef, owner);
    if i == -1 then Desconocido else clients[i].nombre
  }

  /** `rows.map(x => ({...x, cliente_nombre: ...}))`. */
  function Named<T(!new)>(clients: seq<Client>, rows: seq<T>, owner: T -> Option<int>): (r: seq<Listed<T>>)
    ensures |r| == |rows|
    ensures forall i :: 0 <= i < |rows| ==> r[i] == Listed(rows[i], ClientNameOf(clients, owner(rows[i])))
    ensures forall l :: l in r <==> l.row in rows && l.clienteNombre == ClientNameOf(clients, owner(l.row))
  {
    if |rows| == 0 then []
    else [Listed(rows[0], ClientNameOf(clients, owner(rows[0])))] + Named(clients, rows[1..], owner)
  }

  /** Pairing each row with a name neither drops nor duplicates a row: each
      row occurs, with its name, as often as it occurs in `rows`. */
  lemma {:induction false} PairedCount<T>(rows: seq<T>, r: seq<Listed<T>>, name: T -> string, x: T)
    requires |r| == |rows| && forall i :: 0 <= i < |rows| ==> r[i] == Listed(rows[i], name(rows[i]))
    ensures multiset(r)[Listed(x, name(x))] == multiset(rows)[x]
  {
    if |rows| > 0 {
      PairedCount(rows[1..], r[1..], name, x);
      assert rows == [rows[0]] + rows[1..];
      assert r == [r[0]] + r[1..];
    }
  }

  /** `rows.map(...).sort((a, b) => b.id - a.id)`: the rows, each with its
      client's name, largest id first; each row appears as often as in `rows`. */
  function NamedByIdDesc<T(!new)>(clients: seq<Client>, rows: seq<T>, owner: T -> Option<int>, id: T -> int)
    : (r: seq<Listed<T>>)
    ensures |r| == |rows|
    ensures forall i, j :: 0 <= i < j < |r| ==> id(r[i].row) >= id(r[j].row)
    ensures forall l :: l in r <==> l.row in rows && l.clienteNombre == ClientNameOf(clients, owner(l.row))
    ensures forall x :: multiset(r)[Listed(x, ClientNameOf(clients, owner(x)))] == multiset(rows)[x]
  {
    var named := Named(clients, rows, owner);
    var sorted := SortDesc(named, (l: Listed<T>) => id(l.row));
    forall x ensures multiset(sorted)[Listed(x, ClientNameOf(clients, owner(x)))] == multiset(rows)[x] {
      PairedCount(rows, named, (y: T) => ClientNameOf(clients, owner(y)), x);
    }
    assert forall l :: l in sorted <==> l in named by {
      forall l ensures l in sorted <==> l in named {
        assert l in sorted <==> l in multiset(sorted);
        assert l in named <==> l in multiset(named);
      }
    }
    sorted
  }

  /** The role scoping of GET /api/donadoras, /api/receptoras and
      /api/reclamaciones: an admin sees every row; a client sees the rows of
      its linked client, or gets 404 when it has none; any other role gets an
      empty list. */
  function Scope<T(!new)>(rows: seq<T>, clients: seq<Client>, caller: Identity, owner: T -> Option<int>): (r: Result<seq<T>>)
    ensures caller.role == AdminRole ==> r == Ok(rows)
    ensures caller.role == ClientRole && LinkedClient(clients, caller.username).None? ==> r == Err(NotFound)
    ensures caller.role == ClientRole && LinkedClient(clients, caller.username).Some? ==>
              r.Ok? && forall x :: x in r.value <==> x in rows && owner(x) == Some(LinkedClient(clients, caller.username).value.id)
    ensures caller.role == ClientRole && LinkedClient(clients, caller.username).Some? ==>
              r.Ok? && forall x :: multiset(r.value)[x] ==
                                   if owner(x) == Some(LinkedClient(clients, caller.username).value.id) then multiset(rows)[x] else 0
    ensures caller.role != AdminRole && caller.role != ClientRole ==> r == Ok([])
  {
    if caller.role == AdminRole then Ok(rows)
    else if caller.role == ClientRole then
      match LinkedClient(clients, caller.username)
      case None => Err(NotFound)
      case Some(c) => Ok(KeepKey(rows, owner, Some(c.id)))
    else Ok([])
  }

  /** The scoped rows, each with its client's name, sorted by id descending. */
  function ListOwned<T(!new)>(rows: seq<T>, clients: seq<Client>, caller: Identity, owner: T -> Option<int>, id: T -> int)
    : (r: Result<seq<Listed<T>>>)
    ensures r.Err? <==> caller.role == ClientRole && LinkedClient(clients, caller.username).None?
    ensures r.Err? ==> r.failure == NotFound
    ensures r.Ok? ==> forall i, j :: 0 <= i < j < |r.value| ==> id(r.value[i].row) >= id(r.value[j].row)
    ensures r.Ok? ==> forall l :: l in r.value ==> l.row in rows && l.clienteNombre == ClientNameOf(clients, owner(l.row))
    ensures caller.role == AdminRole ==>
              r.Ok? && |r.value| == |rows| && forall x :: x in rows ==> Listed(x, ClientNameOf(clients, owner(x))) in r.value
    ensures caller.role == AdminRole ==>
              r.Ok? && forall x :: multiset(r.value)[Listed(x, ClientNameOf(clients, owner(x)))] == multiset(rows)[x]
    ensures caller.role == ClientRole && LinkedClient(clients, caller.username).Some? ==>
              r.Ok? && forall x :: x in rows && owner(x) == Some(LinkedClient(clients, caller.username).value.id)
                                   <==> Listed(x, ClientNameOf(clients, owner(x))) in r.value
    ensures caller.role == ClientRole && LinkedClient(clients, caller.username).Some? ==>
              r.Ok? && forall x :: multiset(r.value)[Listed(x, ClientNameOf(clients, owner(x)))] ==
                                   if owner(x) == Some(LinkedClient(clients, caller.username).value.id) then multiset(rows)[x] else 0
    ensures caller.role != AdminRole && caller.role != ClientRole ==> r == Ok([])
  {
    match Scope(rows, clients, caller, owner)
    case Err(f) => Err(f)
    case Ok(v) => Ok(NamedByIdDesc(clients, v, owner, id))
  }

  /** GET /api/donadoras. The `cliente_id` query the handler parses is never used. */
  function ListDonors(donors: seq<Donor>, clients: seq<Client>, caller: Identity): (r: Result<seq<Listed<Donor>>>)
    ensures r.Err? <==> caller.role == ClientRole && LinkedClient(clients, caller.username).None?
    ensures r.Err? ==> r.failure == NotFound
    ensures r.Ok? ==> forall i, j :: 0 <= i < j < |r.value| ==> r.value[i].row.id >= r.value[j].row.id
    ensures r.Ok? ==> forall l :: l in r.value ==> l.row in donors && l.clienteNombre == ClientNameOf(clients, DonorOwner(l.row))
    ensures caller.role == AdminRole ==>
              r.Ok? && |r.value| == |donors|
              && forall x :: multiset(r.value)[Listed(x, ClientNameOf(clients, DonorOwner(x)))] == multiset(donors)[x]
    ensures caller.role == ClientRole && LinkedClient(clients, caller.username).Some? ==>
              r.Ok? && forall x :: multiset(r.value)[Listed(x, ClientNameOf(clients, DonorOwner(x)))] ==
                                   if x.clienteId == LinkedClient(clients, caller.username).value.id then multiset(donors)[x] else 0
    ensures caller.role == ClientRole && LinkedClient(clients, caller.username).Some? ==>
              r.Ok? && forall l :: l in r.value ==> l.row.clienteId == LinkedClient(clients, caller.username).value.id
    ensures caller.role != AdminRole && caller.role != ClientRole ==> r == Ok([])
  {
    ListOwned(donors, clients, caller, DonorOwner, DonorId)
  }

  /** GET /api/receptoras. The `cliente_id` query the handler parses is never used. */
  function ListRecipients(recipients: seq<Recipient>, clients: seq<Client>, caller: Identity)
    : (r: Result<seq<Listed<Recipient>>>)
    ensures r.Err? <==> caller.role == ClientRole && LinkedClient(clients, caller.username).None?
    ensures r.Err? ==> r.failure == NotFound
    ensures r.Ok? ==> forall i, j :: 0 <= i < j < |r.value| ==> r.value[i].row.id >= r.value[j].row.id
    ensures r.Ok? ==> forall l :: l in r.value ==> l.row in recipients && l.clienteNombre == ClientNameOf(clients, RecipientOwner(l.row))
    ensures caller.role == AdminRole ==>
              r.Ok? && |r.value| == |recipients|
              && forall x :: multiset(r.value)[Listed(x, ClientNameOf(clients, RecipientOwner(x)))] == multiset(recipients)[x]
    ensures caller.role == ClientRole && LinkedClient(clients, caller.username).Some? ==>
              r.Ok? && forall x :: multiset(r.value)[Listed(x, ClientNameOf(clients, RecipientOwner(x)))] ==
                                   if x.clienteId == LinkedClient(clients, caller.username).value.id then multiset(recipients)[x] else 0
    ensures caller.role == ClientRole && LinkedClient(clients, caller.username).Some? ==>
              r.Ok? && forall l :: l in r.value ==> l.row.clienteId == LinkedClient(clients, caller.username).value.id
    ensures caller.role != AdminRole && caller.role != ClientRole ==> r == Ok([])
  {
    ListOwned(recipients, clients, caller, RecipientOwner, RecipientId)
  }

  /** A claim as GET /api/reclamaciones shows it: `respuesta: r.respuesta || ''`. */
  function ShownClaim(c: Claim): (r: Claim)
    ensures r.respuesta.Some?
    ensures Truthy(c.respuesta) ==> r.respuesta == c.respuesta
    ensures !Truthy(c.respuesta) ==> r.respuesta == Some("")
    ensures r == c.(respuesta := r.respuesta)
  {
    c.(respuesta := Some(Or(c.respuesta, "")))
  }

  /** Every claim of a list as shown: only `respuesta` may change, and it is
      always present. */
  function ShownClaims(claims: seq<Claim>): (r: seq<Claim>)
    ensures |r| == |claims|
    ensures forall i :: 0 <= i < |claims| ==> r[i].respuesta.Some? && r[i] == claims[i].(respuesta := r[i].respuesta)
    ensures forall i :: 0 <= i < |claims| && Truthy(claims[i].respuesta) ==> r[i].respuesta == claims[i].respuesta
    ensures forall i :: 0 <= i < |claims| && !Truthy(claims[i].respuesta) ==> r[i].respuesta == Some("")
  {
    seq(|claims|, i requires 0 <= i < |claims| => ShownClaim(claims[i]))
  }

  /** GET /api/reclamaciones. Showing `respuesta` touches neither the id nor
      `cliente_id`, so it is applied before scoping and sorting, which gives
      the same list as applying it while naming the rows. */
  function ListClaims(claims: seq<Claim>, clients: seq<Client>, caller: Identity): (r: Result<seq<Listed<Claim>>>)
    ensures r.Err? <==> caller.role == ClientRole && LinkedClient(clients, caller.username).None?
    ensures r.Err? ==> r.failure == NotFound
    ensures r.Ok? ==> forall i, j :: 0 <= i < j < |r.value| ==> r.value[i].row.id >= r.value[j].row.id
    ensures r.Ok? ==> forall l :: l in r.value ==> l.row.respuesta.Some? && l.row in ShownClaims(claims)
    ensures r.Ok? ==> forall l :: l in r.value ==> l.clienteNombre == ClientNameOf(clients, l.row.clienteId)
    ensures caller.role == AdminRole ==>
              r.Ok? && |r.value| == |claims|
              && forall x :: multiset(r.value)[Listed(x, ClientNameOf(clients, ClaimOwner(x)))] == multiset(ShownClaims(claims))[x]
    ensures caller.role == ClientRole && LinkedClient(clients, caller.username).Some? ==>
              r.Ok? && forall x :: multiset(r.value)[Listed(x, ClientNameOf(clients, ClaimOwner(x)))] ==
                                   if x.clienteId == Some(LinkedClient(clients, caller.username).value.id)
                                   then multiset(ShownClaims(claims))[x] else 0
    ensures caller.role == ClientRole && LinkedClient(clients, caller.username).Some? ==>
              r.Ok? && forall l :: l in r.value ==> l.row.clienteId == Some(LinkedClient(clients, caller.username).value.id)
    ensures caller.role != AdminRole && caller.role != ClientRole ==> r == Ok([])
  {
    ListOwned(ShownClaims(claims), clients, caller, ClaimOwner, ClaimId)
  }

  /** The `?cliente_id=` branch of GET /api/procesos: the processes with that
      client id, each as often as it occurs, named and largest id first. */
  function ProcessesOf(processes: seq<Process>, clients: seq<Client>, query: Option<int>): (r: seq<Listed<Process>>)
    ensures forall p :: p in processes && p.clienteId == query <==> Listed(p, ClientNameOf(clients, p.clienteId)) in r
    ensures forall p :: multiset(r)[Listed(p, ClientNameOf(clients, ProcessOwner(p)))] ==
                        if p.clienteId == query then multiset(processes)[p] else 0
    ensures forall i, j :: 0 <= i < j < |r| ==> r[i].row.id >= r[j].row.id
    ensures forall l :: l in r ==> l.row in processes && l.clienteNombre == ClientNameOf(clients, l.row.clienteId)
  {
    NamedByIdDesc(clients, KeepKey(processes, ProcessOwner, query), ProcessOwner, ProcessId)
  }

  /** GET /api/procesos. A truthy `cliente_id` query filters by that id for
      any role, before the role is looked at; otherwise an admin sees every
      process, a client those of its linked client (404 without one), and any
      other role gets 403. */
  function ListProcesses(processes: seq<Process>, clients: seq<Client>, caller: Identity, query: Option<int>)
    : (r: Result<seq<Listed<Process>>>)
    ensures TruthyNum(query) ==>
              r.Ok? && forall p :: p in processes && p.clienteId == query
                                   <==> Listed(p, ClientNameOf(clients, p.clienteId)) in r.value
    ensures TruthyNum(query) ==>
              r.Ok? && forall p :: multiset(r.value)[Listed(p, ClientNameOf(clients, ProcessOwner(p)))] ==
                                   if p.clienteId == query then multiset(processes)[p] else 0
    ensures !TruthyNum(query) && caller.role == AdminRole ==>
              r.Ok? && forall p :: multiset(r.value)[Listed(p, ClientNameOf(clients, ProcessOwner(p)))] == multiset(processes)[p]
    ensures !TruthyNum(query) && caller.role == ClientRole && LinkedClient(clients, caller.username).Some? ==>
              r.Ok? && forall p :: multiset(r.value)[Listed(p, ClientNameOf(clients, ProcessOwner(p)))] ==
                                   if p.clienteId == Some(LinkedClient(clients, caller.username).value.id)
                                   then multiset(processes)[p] else 0
    ensures !TruthyNum(query) && caller.role == AdminRole ==>
              r.Ok? && |r.value| == |processes|
              && forall p :: p in processes ==> Listed(p, ClientNameOf(clients, p.clienteId)) in r.value
    ensures !TruthyNum(query) && caller.role == ClientRole && LinkedClient(clients, caller.username).None? ==>
              r == Err(NotFound)
    ensures !TruthyNum(query) && caller.role == ClientRole && LinkedClient(clients, caller.username).Some? ==>
              r.Ok? && forall p :: p in processes && p.clienteId == Some(LinkedClient(clients, caller.username).value.id)
                                   <==> Listed(p, ClientNameOf(clients, p.clienteId)) in r.value
    ensures !TruthyNum(query) && caller.role != AdminRole && caller.role != ClientRole ==> r == Err(Forbidden)
    ensures r.Ok? ==> forall i, j :: 0 <= i < j < |r.value| ==> r.value[i].row.id >= r.value[j].row.id
    ensures r.Ok? ==> forall l :: l in r.value ==> l.row in processes && l.clienteNombre == ClientNameOf(clients, l.row.clienteId)
  {
    if TruthyNum(query) then Ok(ProcessesOf(processes, clients, query))
    else if caller.role == AdminRole || caller.role == ClientRole then
      ListOwned(processes, clients, caller, ProcessOwner, ProcessId)
    else Err(Forbidden)
  }

  /** GET /api/clientes: an admin gets every client sorted by id descending;
      a client gets its linked client alone (404 without one); any other role
      gets 403. */
  function ListClients(clients: seq<Client>, caller: Identity): (r: Result<seq<Client>>)
    ensures caller.role == AdminRole ==> r.Ok? && multiset(r.value) == multiset(clients) && SortedDesc(r.value, ClientId)
    ensures caller.role == ClientRole && LinkedClient(clients, caller.username).None? ==> r == Err(NotFound)
    ensures caller.role == ClientRole && LinkedClient(clients, caller.username).Some? ==>
              r == Ok([LinkedClient(clients, caller.username).value])
              && r.value[0] in clients && r.value[0].nombre == caller.username
    ensures caller.role != AdminRole && caller.role != ClientRole ==> r == Err(Forbidden)
  {
    if caller.role == AdminRole then Ok(SortDesc(clients, ClientId))
    else if caller.role == ClientRole then
      match LinkedClient(clients, caller.username)
      case None => Err(NotFound)
      case Some(c) => Ok([c])
    else Err(Forbidden)
  }

  /** GET /api/users (admin only): user names and roles, never the password hashes. */
  function ListUsers(users: seq<User>, caller: Identity): (r: Result<seq<Identity>>)
    ensures caller.role != AdminRole <==> r == Err(Forbidden)
    ensures r.Ok? ==> |r.value| == |users|
                      && forall i :: 0 <= i < |users| ==> r.value[i].username == users[i].username && r.value[i].role == users[i].role
  {
    if caller.role != AdminRole then Err(Forbidden)
    else Ok(seq(|users|, i requires 0 <= i < |users| => Identity(users[i].username, users[i].role)))
  }

  /** GET /api/clientes/:id, /api/donadoras/:id, /api/receptoras/:id: the
      first record with the id, or 404. No role is checked. */
  function FindById<T>(rows: seq<T>, key: T -> int, id: int): (r: Result<T>)
    ensures r.Err? <==> forall j :: 0 <= j < |rows| ==> key(rows[j]) != id
    ensures r.Err? ==> r.failure == NotFound
    ensures r.Ok? ==> exists j :: 0 <= j < |rows| && rows[j] == r.value && key(r.value) == id
                                  && forall k :: 0 <= k < j ==> key(rows[k]) != id
  {
    var i := IndexOf(rows, key, id);
    if i == -1 then Err(NotFound) else Ok(rows[i])
  }

  /** GET /api/procesos/:id and /api/reclamaciones/:id: as FindById, with the
      name of the record's client. */
  function FindNamed<T>(rows: seq<T>, clients: seq<Client>, key: T -> int, owner: T -> Option<int>, id: int)
    : (r: Result<Listed<T>>)
    ensures r.Err? <==> forall j :: 0 <= j < |rows| ==> key(rows[j]) != id
    ensures r.Err? ==> r.failure == NotFound
    ensures r.Ok? ==> exists j :: 0 <= j < |rows| && rows[j] == r.value.row && key(r.value.row) == id
                                  && forall k :: 0 <= k < j ==> key(rows[k]) != id
    ensures r.Ok? ==> r.value.clienteNombre == ClientNameOf(clients, owner(r.value.row))
  {
    match FindById(rows, key, id)
    case Err(f) => Err(f)
    case Ok(x) => Ok(Listed(x, ClientNameOf(clients, owner(x))))
  }

  /** POST /api/login: the first user with the name, if the password matches
      its stored hash; 401 otherwise. `matches` stands for the hash check. */
  function Login(users: seq<User>, username: string, password: string, matches: (string, string) -> bool)
    : (r: Result<Identity>)
    ensures (forall j :: 0 <= j < |users| ==> users[j].username != username) ==> r == Err(Unauthorized)
    ensures r.Err? ==> r.failure == Unauthorized
    ensures r.Ok? ==> r.value.username == username
                      && exists j :: 0 <= j < |users| && users[j].username == username && users[j].role == r.value.role
                                     && matches(password, users[j].passwordHash)
    ensures UniqueKeys(users, Username) ==>
              forall j :: 0 <= j < |users| && users[j].username == username ==>
                (r.Ok? <==> matches(password, users[j].passwordHash)) && (r.Ok? ==> r.value.role == users[j].role)
  {
    var i := IndexOf(users, Username, username);
    if i != -1 && matches(password, users[i].passwordHash) then Ok(Identity(users[i].username, users[i].role))
    else Err(Unauthorized)
  }
}
