# Fertilvitro backend — a Dafny model

This project models the REST backend of the Fertilvitro embryo-transfer
service (`backend/server.js`). The backend keeps six flat collections:
clients (`clientes`), processes (`procesos`, each with twelve embedded stages,
the `etapas`), claims (`reclamaciones`), donor cows (`donadoras`), recipient
cows (`receptoras`) and users. Every handler reads a whole collection, edits
it in memory and writes it back.

The model has six modules:

- `Js` models JavaScript values as the handlers see them. A request field is an
  `Option` (`None` is `undefined`). The module gives truthiness and the two
  merge styles the handlers use: `a || b` and `a !== undefined ? a : b`.
- `Collections` holds the array operations every handler applies:
  - `findIndex`
  - `filter` on a key, whether `===` or `!==`
  - the `Math.max(...ids) + 1` id rule
  - the stable sort by id, descending, used by the list endpoints

  Each operation is generic in the key it looks at.
- `Records` holds the records, the request bodies and the pure parts of the
  create and update handlers: validation, defaults, the twelve-stage template
  and the field merges. It also holds the stage update with its automatic
  dates.
- `Status` holds `calculateProcessStatus` and `calculateClientStatus`. The
  client version is a function of the process list it would read from disk.
- `Access` holds the read-only handlers: the list endpoints with their role
  scoping, the look-ups by id, the user list and the login check.
- `Server` holds the class `Store`, whose six `seq` fields are the
  collections. It has one method per mutating handler. Each method's
  postcondition gives its whole new state as a function of the old state.
  Each method also keeps `Db.Valid()`: ids are unique in every collection,
  user names are unique, and stage ids are unique within each process.

The authenticated caller is given as an `Identity` (a user name and a role).
The admin-only guard is the `Err(Forbidden)` branch that opens every
admin-only method. The current date, the current time stamp and password
hashes are parameters.

Two behaviours of the code are easy to misread:

- **Client PUT overwrites with an explicit empty value.** The client PUT keeps
  a field only when it is absent (`!== undefined`). An explicit `""` or `0`
  replaces the stored value. `Records.ClientMerged` and
  `Records.EmptyStringMerges` state this.
- **A deleted largest id is reused.** A new id is one above the largest id
  among the records that remain. Deleting the record with the largest id
  therefore frees that id, and the next create reuses it; a count of all ids
  ever issued would not. `Server.DeletedLargestIdIsReused` shows this.

## Model

| member | source | states |
|---|---|---|
| Collections.IndexOf | backend/server.js:717-723 | the first position whose key equals `k`, or -1 exactly when no element has that key |
| Collections.IndexOfUnique | backend/server.js:301 | with unique keys, looking up an element's key finds that element's own position |
| Collections.KeepKey | backend/server.js:62 | every element whose key equals `k` is kept exactly as often as it occurs in the input, and no other element is kept |
| Collections.KeepKeyAppend | backend/server.js:62 | filtering distributes over concatenation, so the kept records stay in their original order |
| Collections.RemoveKey | backend/server.js:331-335 | the kept elements are exactly those whose key differs from `k`; the length is unchanged exactly when no element has key `k`; in that case the list is unchanged |
| Collections.RemoveKeyAppend | backend/server.js:331-335 | filtering distributes over concatenation, so a delete keeps the relative order of the records it keeps |
| Collections.RemoveKeyUniqueCount | backend/server.js:331-335 | with unique ids, a delete of a present id removes exactly one record |
| Collections.RemoveKeyKeepsUnique | backend/server.js:339-345 | filtering on any key never creates a duplicate id |
| Collections.AppendFreshKeepsUnique | backend/server.js:260-275 | appending a record whose key is absent keeps keys unique |
| Collections.ReplaceSameKeyKeepsUnique | backend/server.js:318 | replacing a record by one with the same key keeps keys unique |
| Collections.MaxKey | backend/server.js:260 | `Math.max` of the ids: at least every id and equal to one of them |
| Collections.NextId | backend/server.js:260 | the new id is above every existing id; it is 1 for an empty collection and otherwise one more than some existing id |
| Collections.InsertDesc | backend/server.js:206 | inserting into a list sorted by id, descending, keeps it sorted and adds exactly the new element |
| Collections.SortDesc | backend/server.js:206 | the result is sorted by id, descending, and is a permutation of the input |
| Records.InitialStages | backend/server.js:657-670 | exactly twelve stages with ids 1..12 in order, all "Pendiente", no dates set, and no `fecha_estimada` on the last |
| Records.NewClient | backend/server.js:254-273 | 400 exactly when one of the five mandatory fields is falsy; otherwise the given id, status "Nuevo" and the mandatory fields as sent; each optional field is stored as sent when truthy and gets its default when falsy |
| Records.ClientMerged | backend/server.js:302-316 | for each of the ten fields, a supplied value replaces the stored one, even when empty, and an absent field keeps it; the id and the status are kept; an empty body changes nothing |
| Records.NewDonor | backend/server.js:411-424 | 400 exactly when `cliente_id`, `codigo`, `raza` or `edad` is falsy; otherwise those fields as sent, and `historial` as sent when truthy or "" otherwise |
| Records.DonorMerged | backend/server.js:445-451 | `cliente_id` and `edad` replace the stored value whenever supplied; `codigo`, `raza` and `historial` are replaced by a truthy value and kept when the supplied value is falsy; the id is kept |
| Records.NewRecipient | backend/server.js:522-533 | 400 exactly when `cliente_id` or `codigo` is falsy; otherwise those as sent, and `observaciones` as sent when truthy or "" otherwise |
| Records.RecipientMerged | backend/server.js:554-559 | `cliente_id` replaces whenever supplied; `codigo` and `observaciones` are replaced by a truthy value and kept when the supplied value is falsy; the id is kept |
| Records.NewProcess | backend/server.js:651-676 | the given id and `cliente_id`, the template stages of `InitialStages` (twelve "Pendiente" stages with ids 1..12), manual status "Pendiente" and no derived status |
| Records.ProcessMerged | backend/server.js:696-700 | `cliente_id` and `estado_global_manual` are replaced by a truthy value and kept otherwise; the stages, the id and the derived status are kept |
| Records.StageUpdated | backend/server.js:726-744 | each of `nombre`, `estado`, `fecha_estimada`, `fecha_real` and `observaciones` is replaced by a truthy value and keeps the stored value otherwise; `fecha_inicio` becomes today exactly when the new state is "En Proceso" and none was set; `fecha_real` becomes today when the new state is "Completada" and none was set, even over a supplied date; the id is kept and dates once set are never cleared |
| Records.NewClaim | backend/server.js:846-855 | the given id and time stamp, `estado` defaulting to "Abierto", no `respuesta`, and the other fields as sent |
| Records.ClaimMerged | backend/server.js:876-886 | each of the seven fields, `cliente_id` included, is replaced by a truthy value and kept when the supplied value is falsy; the id and the creation time are kept |
| Records.ClientMergeIdempotent | backend/server.js:302-315 | sending the same client PUT twice changes nothing the second time |
| Records.MergesIdempotent | backend/server.js:445-451 | sending the same donor, recipient, process or claim PUT twice changes nothing the second time |
| Records.EmptyStringMerges | backend/server.js:316 | an explicit "" clears a client's `observaciones` but leaves a recipient's alone |
| Records.StageUpdateNotIdempotent | backend/server.js:740-743 | the stage update is not idempotent: a first completion stores today, and the same request again stores the supplied date |
| Status.AnyStage | backend/server.js:47 | true exactly when some stage has the given state |
| Status.EveryStage | backend/server.js:50 | true exactly when every stage has the given state |
| Status.ProcessStatus | backend/server.js:46-57 | one of the four statuses; "En Proceso" iff a stage is in progress; "Completado" iff all stages are completed, so an empty list gives "Completado"; "Cancelado" iff none is in progress, not all are completed and one is cancelled; "Pendiente" in the remaining case |
| Status.AnyProcess | backend/server.js:68 | true exactly when some process has the given status |
| Status.EveryProcess | backend/server.js:71 | true exactly when every process has the given status |
| Status.ClientStatus | backend/server.js:60-78 | one of "Nuevo", "En Proceso", "Completado", "Pendiente"; "Nuevo" iff the client owns no process; "En Proceso" iff one of its processes is; "Completado" iff it owns some process and all of them are completed |
| Status.ClientNeverCancelled | backend/server.js:74-76 | the client status is never "Cancelado", because the test compares against "Cancelada" |
| Status.CancelledProcessesLeaveClientPending | backend/server.js:74-77 | a client whose processes are all cancelled is reported "Pendiente" |
| Status.NewProcessPending | backend/server.js:657-676 | a freshly created process has status "Pendiente" |
| Status.StartedStageDecides | backend/server.js:47-49 | putting any one stage "En Proceso" makes the process "En Proceso" |
| Access.LinkedClient | backend/server.js:208 | the first client whose name equals the user name, or none exactly when no client has that name |
| Access.ClientNameOf | backend/server.js:377-381 | the name of the first client with the owner's id, or "Desconocido" when there is none |
| Access.Named | backend/server.js:377-382 | every row paired with its client's name, in order |
| Access.PairedCount | backend/server.js:377-382 | pairing rows with names position by position neither drops nor duplicates a row: each occurs with its name as often as in the input |
| Access.NamedByIdDesc | backend/server.js:377-383 | the rows named and sorted by id descending, each row as often as it occurs in the input |
| Access.Scope | backend/server.js:366-375 | an admin sees every row; a client sees exactly the rows of its linked client, each as often as it occurs, or gets 404 without one; any other role gets an empty list |
| Access.ListOwned | backend/server.js:366-383 | the scoped rows, named and sorted by id descending; an admin gets every row as often as it occurs; a client gets exactly its rows, as often as they occur; an error only for a client without a linked client |
| Access.ListDonors | backend/server.js:358-389 | GET donadoras: sorted by id descending and named; every donor, as often as it occurs, for an admin; exactly the linked client's donors for a client; 404 for a client without one; empty for other roles |
| Access.ListRecipients | backend/server.js:469-500 | GET receptoras: the same scoping, multiplicities, names and order over recipients, and 404 for a client without a linked client |
| Access.ShownClaim | backend/server.js:807-811 | a claim as listed: `respuesta` is always present, kept when truthy and "" otherwise; every other field is unchanged |
| Access.ShownClaims | backend/server.js:807-811 | each claim of the list shown that way, position by position |
| Access.ListClaims | backend/server.js:788-818 | GET reclamaciones: the same scoping, multiplicities, names and order over the shown claims, and 404 for a client without a linked client |
| Access.ProcessesOf | backend/server.js:596-620 | with a `cliente_id` query: exactly the processes with that client id, each as often as it occurs, named and sorted by id descending |
| Access.ListProcesses | backend/server.js:588-626 | a truthy `cliente_id` query gives exactly that client's processes for any role; otherwise every process for an admin, a client's own processes or 404, and 403 for other roles; always sorted by id descending and named |
| Access.ListClients | backend/server.js:202-220 | an admin gets a permutation of the clients sorted by id descending; a client gets the first client bearing its name, alone, or 404; other roles get 403 |
| Access.ListUsers | backend/server.js:186-199 | 403 exactly for non-admins; otherwise every user's name and role, in order, with no password hash |
| Access.FindById | backend/server.js:223-236 | the first record with the id, or 404 exactly when none has it |
| Access.FindNamed | backend/server.js:629-647 | the first record with the id and its client's name, or 404 exactly when none has it |
| Access.Login | backend/server.js:122-142 | 401 for an unknown name or a wrong password; on success the caller's name and the stored role; with unique names, success exactly when the password matches that user's hash |
| Server.WithAdmin | backend/server.js:914-924 | afterwards an "admin" user exists; the list is unchanged when one did; otherwise an admin-role "admin" is appended |
| Server.WithAdminIdempotent | backend/server.js:914-924 | running the admin bootstrap twice changes nothing the second time, whatever hash it computes |
| Server.DeletedLargestIdIsReused | backend/server.js:260 | after deleting the client with the largest id, the next client gets that id again |
| Server.WithStage | backend/server.js:744-749 | only the target stage of the target process changes; the process status is recomputed from its new stages; every other process is unchanged |
| Server.WithClientStatus | backend/server.js:752-756 | only the first client with the process's client id changes, and only its status, which becomes `ClientStatus` over the given processes; no client changes when none has that id |
| Server.StartedStageStartsClient | backend/server.js:744-756 | putting a stage of a client's process "En Proceso" makes that client "En Proceso" |
| Server.ProcessesReplaceKeepValid | backend/server.js:697-701 | replacing a process by one with the same id keeps every invariant |
| Server.StageUpdateKeepsValid | backend/server.js:744-756 | the stage update keeps every invariant |
| Server.Store.constructor | backend/server.js:22-29 | a missing data file reads as an empty collection, so all six collections start empty and valid |
| Server.Store.EnsureAdminUser | backend/server.js:914-924 | only the users change, to `WithAdmin` of the old users; an "admin" then exists; nothing changes when one already did |
| Server.Store.RegisterUser | backend/server.js:145-162 | 403 for non-admins; 400 with nothing changed on a duplicate name; otherwise the user is appended with role defaulting to "client" |
| Server.Store.DeleteUser | backend/server.js:165-181 | 403 for non-admins; 404 with nothing changed when no user has the name; otherwise exactly the users with that name are removed |
| Server.Store.CreateClient | backend/server.js:239-282 | 403 for non-admins; 400 with nothing changed on a missing mandatory field; otherwise the new client, with an id above every existing one, is appended |
| Server.Store.UpdateClient | backend/server.js:285-325 | 403; 404 with nothing changed; otherwise only that client is replaced by its merge |
| Server.Store.DeleteClient | backend/server.js:328-353 | 403; 404 with nothing changed; otherwise the client and all its processes and claims are removed, and donors and recipients are untouched |
| Server.Store.CreateDonor | backend/server.js:408-433 | 403; 400 with nothing changed; otherwise the new donor, with a fresh id, is appended |
| Server.Store.UpdateDonor | backend/server.js:436-460 | 403; 404 with nothing changed; otherwise only that donor is replaced by its merge |
| Server.Store.CreateRecipient | backend/server.js:519-542 | 403; 400 with nothing changed; otherwise the new recipient, with a fresh id, is appended |
| Server.Store.UpdateRecipient | backend/server.js:545-567 | 403; 404 with nothing changed; otherwise only that recipient is replaced by its merge |
| Server.Store.DeleteRecipient | backend/server.js:570-585 | 403; 404 with nothing changed; otherwise exactly the recipients with that id are removed |
| Server.Store.CreateProcess | backend/server.js:650-684 | 403; otherwise the new process, from the template and with a fresh id, is appended |
| Server.Store.UpdateProcess | backend/server.js:687-708 | 403; 404 with nothing changed; otherwise only that process is replaced by its merge |
| Server.Store.UpdateStage | backend/server.js:711-765 | 403; 404 with nothing changed when the process or the stage is missing; otherwise only that stage changes, the process status is recomputed, and the owning client, if any, gets `ClientStatus` over the updated process list; every other record is unchanged |
| Server.Store.DeleteProcess | backend/server.js:768-783 | 403; 404 with nothing changed; otherwise exactly the processes with that id are removed |
| Server.Store.CreateClaim | backend/server.js:842-864 | any authenticated role; the new claim, with a fresh id and the given time stamp, is appended |
| Server.Store.UpdateClaim | backend/server.js:867-893 | 403; 404 with nothing changed; otherwise only that claim is replaced by its merge |
| Server.Store.DeleteClaim | backend/server.js:896-911 | 403; 404 with nothing changed; otherwise exactly the claims with that id are removed |

## Left out

- File persistence (`readJsonFile`, `writeJsonFile`) is not modelled: the collections are fields. A read or write failure and the resulting 500 responses are not modelled.
- Only the missing-file case survives: it reads as an empty collection, which is what the constructor gives.
- bcrypt hashing and JWT signing and checking are foreign cryptography. A hash is a parameter, and `Login` takes the hash comparison as a function. The caller is a given identity.
- Token errors (401 without a token, 403 for an invalid one) and token expiry are not modelled.
- Express routing, CORS and static file serving are framework code.
- `parseInt` of path parameters and of `cliente_id`/`edad`, and `NaN`, are not modelled: ids and numbers are integers. The model does not distinguish a JSON number from a numeric string.
- Request fields are strings or integers: a JSON value of another type (an array, an object, `null`, `false`) is not modelled.
- `Server.Store.RegisterUser` does not model a missing `username` or `password`: both are strings. In the backend, a missing `password` makes the hashing fail with a 500. A missing `username` with a password is stored as a user with no name and answered with 201.
- The wall clock is not modelled: today's date and the creation time stamp are parameters.
- Concurrency between requests is not modelled: the read-modify-write races between asynchronous handlers need a concurrent model.
- The browser front-end (`js/` and `backend/public/js/`) is not part of this model. It renders pages and calls the backend, and it computes nothing the backend relies on.
- Stage `fecha_real` is a string, with "" meaning unset. A stored stage without `fecha_real` is not modelled, because the template always sets it to "".
- `Access.ListDonors`, `Access.ListRecipients`: the `cliente_id` query is parsed by these handlers but never used, so it is not an argument.
- Records are not checked against one another: a process, claim, donor or recipient may name a client that does not exist. The backend does not check this either.
- `Server.Store.DeleteProcess` does not refresh the owning client's cached status, because the backend does not.
- `Server.Store.UpdateProcess` does not refresh the derived statuses, because the backend does not.
- Donors have no delete operation, because the backend has no such route.
- `Server.Store.DeleteUser` can delete "admin"; it comes back only at the next start-up, when `EnsureAdminUser` runs.
