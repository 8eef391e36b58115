# GleSYS Terraform provider: the decision logic of its resource handlers

This project is a Dafny model of the decision logic inside the GleSYS Terraform provider's resource handlers.

Each handler reads its resource's attributes from the SDK's `schema.ResourceData`. It then:

- calls the GleSYS API through the glesys-go client;
- writes attributes and the resource id back;
- returns diagnostics.

The HTTP plumbing cannot be modelled. What can be stated and proved is the logic between the calls:

- which calls are issued, in which order, and with which parameters;
- how an API answer is copied into the resource state;
- when the id is cleared;
- which error message comes back.

## Structure

One module per core source file, plus small helper modules:

| module | models |
|---|---|
| `Wrappers` | `Option`, `Result`, and `CallStatus` (an API call that returns only an error). `Outcome` is the handler's diagnostics: `Pass`, `Fail(message)` for a returned `diag.Errorf`, or `Panic(message)` for a Go runtime panic. |
| `GoStrings` | The parts of Go's `strings` and `strconv` that the handlers use: `Split`, `Join`, `Atoi` over the int64 range, `Itoa`, `FormatBool`, and ASCII `ToLower` / `EqualFold`. |
| `Lists` | `LastWhere`: the result of a Go loop that overwrites the state on every matching element of a list. |
| `ResourceState` | `class ResourceData<S>`. It holds the resource `id`, the attribute record `state`, and the planned-against values `prior`. `HasChange(f)` is `state.f != prior.f`. `SetId` changes only the id. |
| `Waiting` | `Refresh`, the result of a `StateRefreshFunc`. `WaitRequest` holds the attribute, target, pending states and timing constants handed to the SDK's poller. |
| `Suppress` | `IgnoreCase`, the hostname diff suppressor. |
| `Server` | `resource_glesys_server.go` |
| `DomainRecord` | `resource_glesys_domain_record.go` |
| `ServerDisk` | `resource_glesys_server_disk.go` |
| `Database` | `resource_glesys_database.go` |
| `Email` | `resource_glesys_email.go` |
| `EmailAlias` | `resource_glesys_emailalias.go` |
| `LoadBalancerTarget` | `resource_glesys_loadbalancer_target.go` |
| `Ip` | `resource_glesys_ip.go` |

Every handler is a method on a `ResourceData<S>` object. It also takes the API's answers as an input record (`ServerApi`, `RecordApi`, …), with one field per call. It returns:

- the diagnostics;
- the log of calls issued, in order, with their parameters.

Its `ensures` clauses give the new id, the new state, the diagnostics and the call log for every combination of answers. A handler that ends by calling Read says so through a shared `ReadDone` predicate.

Read's copy rules are specification functions: `ServerReadState`, `CopyRecord`, `CopyDisk`, `CopyAccount`, `CopyTarget`, and the database and IP `ReadState`. Lemmas characterise each one without reference to its loop, for example "the last IPv4 entry wins" or "the record whose id matches is copied".

Partial-update parameter builders are specified the same way, by a function `EditParamsFor(prior, now)`. A zero field in a partial update means "unchanged" to the API. `ApplyEdit` models that rule, and the `EditReachesPlan` lemmas state exactly when an update reaches the planned values.

## Model

| member | source | states |
|---|---|---|
| Server.ExpandUsers | glesys/resource_glesys_server.go:228-250 | one user per configured block, same order, each with its username, password and public keys (in order); the error is always nil |
| Server.ExpandBackupSchedules | glesys/resource_glesys_server.go:252-266 | one schedule per block, same order, frequency copied and retention mapped to the number of images to keep; never an error |
| Server.GetTemplate | glesys/resource_glesys_server.go:339-349 | the configured template is kept when it is one of the initial template's current tags or equals its id; otherwise the API's template name is returned |
| Server.GetTemplateStable | glesys/resource_glesys_server.go:339-349 | reconciling an already reconciled template gives the same answer (a second Read does not flip the attribute) |
| Server.GetTemplateTestTable | glesys/resource_glesys_server_test.go:12-55 | the three rows of the unit test's table (KVM tag, UUID template id, VMware name) give the expected template |
| Server.ServerStateRefresh | glesys/resource_glesys_server.go:532-554 | a failed details fetch is an error; "islocked" / "isrunning" give FormatBool of the lock / running flag with the server as snapshot; any other attribute gives a nil snapshot and state "" |
| Server.WaitsObserveTheirFlag | glesys/resource_glesys_server.go:519-530 | the running wait reaches its target "true" iff the server runs and is pending otherwise; the unlocked wait reaches "false" iff the server is unlocked |
| Server.WithAddressesLast | glesys/resource_glesys_server.go:371-378 | the IP-list loop leaves ipv4/ipv6 as the last address of that version, or untouched when the list has none |
| Server.LastAddressIs | glesys/resource_glesys_server.go:371-378 | the chosen address is that of the entry of the version with no later entry of the same version; no entry of the version gives none |
| Server.WithPrimaryLast | glesys/resource_glesys_server.go:404-422 | the adapter loop leaves primary_networkadapter_network as the network of the last adapter that is primary or named "Network adapter 1", untouched when there is none |
| Server.ReadClosed | glesys/resource_glesys_server.go:351-430 | Read's attribute updates compose to head fields, addresses, middle fields, primary adapter, then the adapter list |
| Server.ReadAddresses | glesys/resource_glesys_server.go:371-378 | after Read, ipv4_address / ipv6_address are the last IPList address of version 4 / 6, untouched if there is none |
| Server.ReadBandwidth | glesys/resource_glesys_server.go:362-365 | Read copies bandwidth only when the platform is not "KVM" |
| Server.ReadTemplate | glesys/resource_glesys_server.go:384 | Read stores the reconciled template |
| Server.ReadPrimaryNetwork | glesys/resource_glesys_server.go:414-416 | primary_networkadapter_network is the primary adapter's network id, unchanged when no adapter is primary |
| Server.ReadIdempotent | glesys/resource_glesys_server.go:351-430 | reading the same server twice gives the state a single Read gives |
| Server.ServerRead | glesys/resource_glesys_server.go:351-430 | a failed details fetch clears the id with no diagnostics; otherwise the state becomes ServerReadState of the answer, and the calls are details then adapter listing |
| Server.SetServerNetworkAdapter | glesys/resource_glesys_server.go:477-497 | lists the adapters, then edits the primary adapter's network to the configured one; the edit's status is the result |
| Server.AdapterEditIsRead | glesys/resource_glesys_server.go:477-497 | after the edit, a Read sees the configured network as the primary adapter's network |
| Server.ReadAfterAdapterEdit | glesys/resource_glesys_server.go:404-416 | the Read that follows a successful adapter edit stores the configured network as primary_networkadapter_network, whenever the server has a primary adapter |
| Server.BuildEditServerParams | glesys/resource_glesys_server.go:435-461 | the edit params equal EditParamsFor(prior, planned): each field is the new value if it changed and its zero value otherwise |
| Server.EditReachesPlan | glesys/resource_glesys_server.go:435-465 | applying the params to the prior server reaches the planned cpu, description, bandwidth, hostname, memory, storage and schedules if and only if no changed field is planned at its zero value |
| Server.EditCannotClear | glesys/resource_glesys_server.go:440-442 | clearing the description sends nothing for it, so the API keeps the old one |
| Server.ServerCreate | glesys/resource_glesys_server.go:291-337 | create, set id, wait running, wait unlocked, adapter edit iff a primary network is configured, then Read (whose own adapter listing shows the edit); each failure stops with its own message and log; after a successful edit of an existing primary adapter the state holds the configured network |
| Server.ServerUpdate | glesys/resource_glesys_server.go:432-475 | the edit is always sent; the adapter is edited iff primary_networkadapter_network changed; then Read (whose own adapter listing shows the edit); failures stop with their messages; after a successful adapter edit of an existing primary adapter the state holds the configured network |
| Server.ServerDelete | glesys/resource_glesys_server.go:499-516 | wait unlocked, destroy without keeping the IP, then Read; each failure stops with its message and the id intact |
| DomainRecord.ParseImportId | glesys/resource_glesys_domain_record.go:61-75 | an id without "," is left unchanged; otherwise the import gives a comma-free domain and a record id that Atoi accepts, or an error |
| DomainRecord.ImportRoundTrip | glesys/resource_glesys_domain_record.go:61-75 | "domain,<Itoa n>" imports as domain and the decimal of n |
| DomainRecord.ImportIgnoresTrailingPieces | glesys/resource_glesys_domain_record.go:63-71 | pieces after the second comma-separated part are ignored, whether the record id is accepted or refused |
| DomainRecord.ImportTwoPieces | glesys/resource_glesys_domain_record.go:61-75 | "domain,rid" imports as domain and rid exactly when Atoi accepts rid, and is refused with "invalid recordid: " and Atoi's error otherwise |
| DomainRecord.ImportRefusesEmptyRecordId | glesys/resource_glesys_domain_record.go:63-68 | a trailing comma is rejected as an invalid record id |
| DomainRecord.RecordImport | glesys/resource_glesys_domain_record.go:61-75 | unchanged / "invalid recordid" error with nothing written / id := second part and domain := first part |
| GoStrings.AtoiOfItoa | glesys/resource_glesys_domain_record.go:94-107 | Atoi of the decimal rendering of any int64 record id recovers it, so an id set by Create is accepted by Read, Update and Delete |
| Lists.LastWhereIsLast | glesys/resource_glesys_domain_record.go:116-125 | an overwrite-on-match loop ends with a matching element after which nothing matches, or with none when nothing matches |
| DomainRecord.ReadCopiesRecord | glesys/resource_glesys_domain_record.go:116-125 | Read copies the last record whose id matches; with no match the attributes are unchanged |
| DomainRecord.RecordRead | glesys/resource_glesys_domain_record.go:100-128 | a non-integer id fails before any call; a listing error clears the id; otherwise the matching record is copied |
| DomainRecord.RecordCreate | glesys/resource_glesys_domain_record.go:77-98 | add the record; on success the id is the decimal record id and Read finds the record by that id |
| DomainRecord.UpdateReachesPlan | glesys/resource_glesys_domain_record.go:130-154 | the params always carry the record id; applying them reaches the planned data, host, ttl and type iff no changed field becomes its zero value |
| DomainRecord.RecordUpdate | glesys/resource_glesys_domain_record.go:130-162 | a non-integer id fails with no call; otherwise the update is sent with the parsed id and then Read |
| DomainRecord.RecordDelete | glesys/resource_glesys_domain_record.go:164-178 | a non-integer id fails with no call; otherwise the id is cleared only when the delete succeeds |
| ServerDisk.ParseImportId | glesys/resource_glesys_server_disk.go:61-74 | an id without "," is unchanged; the "not enough parameters" branch is unreachable; an import gives comma-free serverid and disk id |
| ServerDisk.ImportRoundTrip | glesys/resource_glesys_server_disk.go:61-74 | "serverid,diskid" imports as that server and disk |
| ServerDisk.DiskImport | glesys/resource_glesys_server_disk.go:61-74 | id := second part and serverid := first part; an id without "," leaves everything unchanged; never an error |
| ServerDisk.DiskStateRefresh | glesys/resource_glesys_server_disk.go:115-125 | FormatBool of the server's lock flag, or an error naming the server when details fail |
| ServerDisk.WaitObservesLock | glesys/resource_glesys_server_disk.go:102-114 | the disk's wait reaches "false" iff the server is unlocked and is pending iff it is locked |
| ServerDisk.ReadCopiesDisk | glesys/resource_glesys_server_disk.go:137-144 | Read copies the last additional disk whose id matches; with no match the attributes are unchanged |
| ServerDisk.DiskRead | glesys/resource_glesys_server_disk.go:127-147 | a failed server fetch clears the id; otherwise the matching disk is copied; no diagnostics either way |
| ServerDisk.DiskCreate | glesys/resource_glesys_server_disk.go:75-100 | waits for the server to be unlocked before creating the disk, then sets the id and Reads |
| ServerDisk.UpdateCalls | glesys/resource_glesys_server_disk.go:149-171 | at most two calls, all for the disk id: UpdateName (new name, size 0) iff the name changed, Reconfigure (new size) iff the size changed, name first; Reconfigure carries the new name when both changed |
| ServerDisk.DiskUpdate | glesys/resource_glesys_server_disk.go:149-175 | issues UpdateCalls in order, stopping at the first failure, then Reads |
| ServerDisk.DiskDelete | glesys/resource_glesys_server_disk.go:177-189 | the id is cleared only when the delete succeeds |
| Database.FirstNonString | glesys/resource_glesys_database.go:116-126 | none iff every element is a string; otherwise the index of the first non-string |
| Database.Strings | glesys/resource_glesys_database.go:116-126 | the typed list has the input's length, and element i is input i |
| Database.ConvertResourceDataToListOfStrings | glesys/resource_glesys_database.go:116-126 | an all-string input gives that list; otherwise no list, and an error naming the first non-string index |
| Database.ConvertUntyped | glesys/resource_glesys_database.go:116-126 | converting a list of strings given untyped gives it back |
| Database.DatabaseStateRefresh | glesys/resource_glesys_database.go:220-232 | state "true" iff the status equals the awaited one, "false" otherwise; a fetch failure is an error naming the database |
| Database.WaitObservesStatus | glesys/resource_glesys_database.go:207-218 | the running wait reaches its target iff the status is "RUNNING" |
| Database.ReadEngineLowered | glesys/resource_glesys_database.go:170 | Read stores the engine lower-cased |
| Database.ReadAllowlistConverts | glesys/resource_glesys_database.go:151-186 | the allowlist Read stores converts back to the API's list |
| Database.DatabaseRead | glesys/resource_glesys_database.go:151-186 | a failure of details or of the connection string clears the id with no diagnostics; otherwise the state is ReadState of the answers |
| Database.DatabaseCreate | glesys/resource_glesys_database.go:87-114 | create, set id, wait until RUNNING, then Read; each failure stops with its message |
| Database.UpdateAllowlistOf | glesys/resource_glesys_database.go:128-149 | a conversion error stops before any call; otherwise the allowlist is sent and then the database is awaited |
| Database.DatabaseUpdate | glesys/resource_glesys_database.go:188-193 | Update runs updateAllowlist and discards its diagnostics |
| Database.DatabaseDelete | glesys/resource_glesys_database.go:195-204 | the id is cleared only when the delete succeeds; otherwise an error with the id intact |
| Email.DomainOf | glesys/resource_glesys_email.go:128-129 | the second "@"-separated piece of the id; none (an index panic) iff the id has no "@" |
| Email.DomainOfAddress | glesys/resource_glesys_email.go:128-129 | the domain of "local@domain" is domain |
| Email.DomainOfSecondPiece | glesys/resource_glesys_email.go:128-129 | with several "@", the domain is the second piece |
| Email.AccountRead | glesys/resource_glesys_email.go:125-157 | panic without "@"; a listing error keeps everything; exactly one account is copied and becomes the id; zero clears the id; more than one keeps the state |
| Email.ReadStable | glesys/resource_glesys_email.go:136-150 | copying the same account twice changes nothing further, and the copied address is the account's |
| Email.AccountCreate | glesys/resource_glesys_email.go:103-123 | create; on success the id is the returned address and Read follows |
| Email.EditReachesPlan | glesys/resource_glesys_email.go:159-186 | applying the params reaches the planned antispam, antivirus, autorespond, message, quota and rejectspam iff no changed field becomes its zero value |
| Email.AccountUpdate | glesys/resource_glesys_email.go:159-193 | the edit is sent with EditParamsFor(prior, planned), then Read; a failure stops |
| Email.AccountDelete | glesys/resource_glesys_email.go:195-204 | the id is cleared only when the delete succeeds |
| EmailAlias.AliasRead | glesys/resource_glesys_emailalias.go:57-80 | panic without "@"; a listing error keeps everything; exactly one alias is copied and becomes the id; zero clears; more than one keeps |
| EmailAlias.AliasCreate | glesys/resource_glesys_emailalias.go:40-55 | create; on success the id is the returned alias and Read follows |
| EmailAlias.EditReachesPlan | glesys/resource_glesys_emailalias.go:82-91 | the params always name the current id; the planned goto is reached if and only if it is not a change to the empty goto, and a planned empty goto leaves the prior one |
| EmailAlias.AliasUpdate | glesys/resource_glesys_emailalias.go:82-98 | the edit is sent, then Read; a failure stops |
| EmailAlias.AliasDelete | glesys/resource_glesys_emailalias.go:100-109 | the id is cleared only when the delete succeeds |
| LoadBalancerTarget.MatchingPrefix | glesys/resource_glesys_loadbalancer_target.go:112-128 | the backends Read walks: the longest prefix carrying the configured backend name |
| LoadBalancerTarget.ReadKeepsIdIffAllBackendsMatch | glesys/resource_glesys_loadbalancer_target.go:112-128 | Read keeps the id iff every backend carries the configured name |
| LoadBalancerTarget.CopyMatchingTargets | glesys/resource_glesys_loadbalancer_target.go:113-121 | the inner loop leaves the last target with the configured name copied |
| LoadBalancerTarget.ReadCopiesTarget | glesys/resource_glesys_loadbalancer_target.go:113-121 | the copied target is the last one with the configured name; with none the attributes are unchanged |
| LoadBalancerTarget.TargetRead | glesys/resource_glesys_loadbalancer_target.go:100-131 | a failed details call clears the id; otherwise targets of the matching backend prefix are copied and the id is cleared at the first mismatching backend |
| LoadBalancerTarget.TargetCreate | glesys/resource_glesys_loadbalancer_target.go:66-98 | add, then disable iff enabled is false, then the id is the name and Read follows |
| LoadBalancerTarget.ToggleReachesPlan | glesys/resource_glesys_loadbalancer_target.go:148-166 | when enabled changed, DisableTarget is issued iff the new value is false and EnableTarget iff it is true |
| LoadBalancerTarget.EditReachesPlan | glesys/resource_glesys_loadbalancer_target.go:138-179 | the params carry backend and name; port, target ip and weight are reached iff no changed field becomes its zero value |
| LoadBalancerTarget.BuildEditTargetParams | glesys/resource_glesys_loadbalancer_target.go:138-179 | the params equal EditParamsFor(prior, planned) |
| LoadBalancerTarget.TargetUpdate | glesys/resource_glesys_loadbalancer_target.go:133-188 | toggle iff enabled changed, then edit, then Read; each failure stops with its message |
| LoadBalancerTarget.TargetDelete | glesys/resource_glesys_loadbalancer_target.go:190-207 | the id is cleared only when RemoveTarget succeeds |
| Ip.ReadCost | glesys/resource_glesys_ip.go:175-184 | cost is a one-element list holding amount, currency and time period |
| Ip.ReadIdempotent | glesys/resource_glesys_ip.go:151-186 | reading the same address twice gives the state one Read gives |
| Ip.IpRead | glesys/resource_glesys_ip.go:151-186 | a failed details call clears the id with no diagnostics; otherwise the state is ReadState of the answer |
| Ip.AddressToReserve | glesys/resource_glesys_ip.go:113-132 | a configured address is reserved as is; otherwise the first available one, or none when the list is empty |
| Ip.IpCreate | glesys/resource_glesys_ip.go:109-149 | Available only when no address is configured; an empty offer panics; reserve; SetPTR iff ptr is non-empty; id := the reserved address |
| Ip.IpUpdate | glesys/resource_glesys_ip.go:188-204 | SetPTR iff ptr changed, otherwise no call and no diagnostics |
| Ip.IpDelete | glesys/resource_glesys_ip.go:206-216 | the id is cleared only after a successful Release |
| Suppress.IgnoreCaseReflexive | glesys/supress.go:10-12 | every value is equal to itself |
| Suppress.IgnoreCaseSymmetric | glesys/supress.go:10-12 | old and new can be swapped |
| Suppress.IgnoreCaseIffSameLower | glesys/supress.go:10-12 | the suppressor holds iff both values lower-case (ASCII) to the same string |
| Suppress.IgnoreCaseOfLowered | glesys/resource_glesys_server.go:77 | a hostname and its lower-cased form are never a diff |
| Suppress.IgnoreCaseSameLength | glesys/supress.go:10-12 | equal values have equal lengths |
| Suppress.IgnoreCaseTransitive | glesys/supress.go:10-12 | the suppressor is transitive |

## Left out

- The SDK's poller (`StateChangeConf`, `WaitForStateContext`) is outside the model, with its timeouts, delays, minimum timeout and not-found checks, because it is wall-clock sleeping inside the SDK. A wait is the logged `WaitRequest` with its constants, and its outcome is an input.
- HTTP and the glesys-go client are outside the model. Every API answer is an input; only the call sequence and its parameters are modelled.
- Schema declarations, `provider.go`, `main.go` and `config.go` are plugin wiring and are not part of this model.
- The other resource and data-source files only copy fields through libraries that are not modelled.
- Logging has no effect on the outcome and is not modelled.
- `diag.Errorf` / `fmt.Errorf` values that are built but never returned are modelled as no error, for example the schedule expansion error in the server's Update.
- The server's Create returns the errors of `expandBackupSchedules` and `expandUsers`, but those functions never fail, so those error paths cannot be reached and are not modelled.
- `d.SetConnInfo` in the server's Create is not modelled, because it only feeds the SDK's provisioners.
- The attribute store is a typed record per resource, not a string-keyed map. An assertion like `d.Get("cpu").(int)` therefore always holds, and its panic is not modelled.
- Nil and empty slices are the same value, except for the database allowlist sent on create, where a conversion failure sends a nil list.
- Unicode case folding is not modelled. `strings.EqualFold` and `strings.ToLower` are modelled on ASCII letters only.
- `Ip.ReadCost`: the cost amount is a real number that is copied as is. Float64 rounding is not modelled.
- `GoStrings.AtoiError` gives Go's `strconv.Atoi` message, but it does not model the escaping `strconv.Quote` applies to non-printable characters.
- `Server.ServerRead`: assumes the adapter listing succeeds. The source ignores that call's error and then dereferences the result, which is not modelled.
- `Server.ServerRead`: failures of `d.Set` on `backups_schedule` and `network_adapters` are not modelled, because a well-formed schema never produces them.
- `Server.SetServerNetworkAdapter`: assumes the adapter listing succeeds, for the same reason as `Server.ServerRead`.
- `Server.CreateParams`: glesys-go's `WithDefaults` fills zero fields of the create parameters before the call. It is not modelled, so the logged `CreateServer` parameters are the values before defaults are filled in.
- `Server.EditedApi`: the Read after a successful adapter edit lists the adapters again. The model assumes that listing shows the edited adapter on the new network and is otherwise unchanged; the API's side of this is not shown.
- `Server.BuildEditServerParams`: the `backups_schedule` and `user` sets are compared as ordered sequences, in the order the SDK lists them. A reordering alone would count as a change here, while the SDK's set comparison ignores it.
- `Ip.IpRead`: a failing `d.Set("cost")` is treated as success, because the value always matches the schema.
- `Database.DatabaseRead`: the source also `d.Set`s plan and maintenance attributes that are not in the schema. The SDK rejects those writes and their errors are ignored, so they leave no trace. The model omits them, and the redundant `d.Set("id")` too.
- The `EditReachesPlan` and `UpdateReachesPlan` lemmas rely on an assumption about the API that the source does not show: fields left at their zero value in a partial update are ignored. `ApplyEdit` and `ApplyUpdate` state that assumption.
- `GoStrings.Atoi`: a syntax error and an out-of-range error are one failure case, because every caller only checks whether the error is nil. The message text still follows Go's.
