/** resource_glesys_database.go: a managed database instance. */
module Database {
  import opened Wrappers
  import opened GoStrings
  import opened ResourceState
  import opened Waiting

  /** An element of an untyped (`[]interface{}`) list as the SDK hands it
      over: a string, or a value of some other dynamic type. */
  datatype Untyped = AString(value: string) | NotAString

  /** The resource's attributes besides the id. `allowlist` is a
      `TypeList` of strings, which the SDK returns untyped. */
  datatype DatabaseState = DatabaseState(
    name: string,
    engine: string,
    engineversion: string,
    datacenterkey: string,
    fqdn: string,
    status: string,
    plankey: string,
    connectionstring: string,
    allowlist: seq<Untyped>)

  /** The fields of the API's database details that have an attribute. */
  datatype DatabaseDetails = DatabaseDetails(
    id: string, name: string, engine: string, engineVersion: string, dataCenterKey: string,
    fqdn: string, status: string, allowlist: seq<string>)

  /** `allowList` is None where the source passes a nil slice. */
  datatype CreateDatabaseParams = CreateDatabaseParams(
    name: string, dataCenterKey: string, engine: string, engineVersion: string, planKey: string,
    allowList: Option<seq<string>>)

  /** The answers the API gives during one handler run. */
  datatype DatabaseApi = DatabaseApi(
    create: Result<string, string>,
    waitRunning: CallStatus,
    details: Result<DatabaseDetails, string>,
    connectionString: Result<string, string>,
    updateAllowlist: CallStatus,
    delete: CallStatus)

  datatype DatabaseCall =
    | CreateDatabase(params: CreateDatabaseParams)
    | Wait(databaseId: string, request: WaitRequest)
    | GetDetails(databaseId: string)
    | GetConnectionString(databaseId: string)
    | UpdateAllowlist(databaseId: string, allowList: seq<string>)
    | DeleteDatabase(databaseId: string)

  // ---------------------------------------------------------------------------
  // convertResourceDataToListOfStrings
  // ---------------------------------------------------------------------------

  /** The index of the first element that is not a string, if any. */
  function FirstNonString(raw: seq<Untyped>): (k: Option<nat>)
    ensures k.None? <==> forall i :: 0 <= i < |raw| ==> raw[i].AString?
    ensures k.Some? ==> k.value < |raw| && raw[k.value].NotAString?
                        && forall i :: 0 <= i < k.value ==> raw[i].AString?
    decreases |raw|
  {
    if raw == [] then None
    else if raw[0].NotAString? then Some(0)
    else
      var k := FirstNonString(raw[1..]);
      if k.None? then None else Some(k.value + 1)
  }

  /** The strings of an all-string list, in order. */
  function Strings(raw: seq<Untyped>): (strs: seq<string>)
    requires forall i :: 0 <= i < |raw| ==> raw[i].AString?
    ensures |strs| == |raw| && forall i :: 0 <= i < |raw| ==> strs[i] == raw[i].value
  {
    seq(|raw|, i requires 0 <= i < |raw| => raw[i].value)
  }

  /** The untyped list the SDK returns for a list of strings. */
  function Untype(strs: seq<string>): seq<Untyped>
  {
    seq(|strs|, i requires 0 <= i < |strs| => AString(strs[i]))
  }

  /** The error convertResourceDataToListOfStrings returns for index `i`. */
  function NotAStringError(i: nat): string
  {
    "element at index " + Itoa(i) + " is not a string"
  }

  /** convertResourceDataToListOfStrings: fills a buffer of the input's
      length by index; the first element that is not a string stops it with
      an error naming that index and no list. */
  method ConvertResourceDataToListOfStrings(raw: seq<Untyped>) returns (strs: Option<seq<string>>, err: Option<string>)
    ensures FirstNonString(raw).None? ==> err == None && strs == Some(Strings(raw))
    ensures FirstNonString(raw).Some? ==>
      strs == None && err == Some(NotAStringError(FirstNonString(raw).value))
  {
    var buf := new string[|raw|];
    var i := 0;
    while i < |raw|
      invariant 0 <= i <= |raw|
      invariant forall j :: 0 <= j < i ==> raw[j].AString? && buf[j] == raw[j].value
    {
      if raw[i].NotAString? {
        return None, Some(NotAStringError(i));
      }
      buf[i] := raw[i].value;
      i := i + 1;
    }
    assert buf[..] == Strings(raw);
    strs, err := Some(buf[..]), None;
  }

  /** A list of strings survives the SDK's untyping and the conversion back. */
  lemma ConvertUntyped(strs: seq<string>)
    ensures FirstNonString(Untype(strs)).None?
    ensures Strings(Untype(strs)) == strs
  {
  }

  // ---------------------------------------------------------------------------
  // databaseStateRefresh and the wait
  // ---------------------------------------------------------------------------

  /** databaseStateRefresh(attr): "true" iff the database's status is
      `attr`, or an error when its details cannot be fetched. */
  function DatabaseStateRefresh(id: string, attr: string, details: Result<DatabaseDetails, string>): (r: Refresh<DatabaseDetails>)
    ensures r.RefreshFailed? <==> details.Err?
    ensures details.Ok? ==> r.snapshot == Some(details.value)
    ensures details.Ok? ==> (r.state == "true" <==> details.value.status == attr)
    ensures details.Ok? ==> (r.state == "false" <==> details.value.status != attr)
    ensures details.Err? ==> r.message == "error retrieving Database (" + id + "): " + details.error
  {
    if details.Err? then RefreshFailed("error retrieving Database (" + id + "): " + details.error)
    else Refreshed(Some(details.value), FormatBool(details.value.status == attr))
  }

  /** waitForDatabaseAttribute as the handlers call it: until the status is
      RUNNING, 20 minute timeout, 6 s delay, 3 s minimum poll interval. */
  const RunningWait: WaitRequest := WaitRequest("RUNNING", "true", ["false"], 20, 6, 3, 0)

  /** The wait ends exactly on a running database and keeps polling one in
      any other status. */
  lemma WaitObservesStatus(id: string, db: DatabaseDetails)
    ensures DatabaseStateRefresh(id, RunningWait.attribute, Ok(db)).state == RunningWait.target
            <==> db.status == "RUNNING"
    ensures DatabaseStateRefresh(id, RunningWait.attribute, Ok(db)).state in RunningWait.pending
            <==> db.status != "RUNNING"
  {
  }

  // ---------------------------------------------------------------------------
  // Read
  // ---------------------------------------------------------------------------

  /** The attributes a successful Read leaves. The `id` attribute Read also
      sets is the resource id the SDK keeps separately, and the plan and
      maintenance-window keys Read sets are not in the schema, so the SDK
      drops them. */
  function ReadState(s: DatabaseState, db: DatabaseDetails, connectionString: string): DatabaseState
  {
    s.(name := db.name, engine := ToLower(db.engine), engineversion := db.engineVersion,
       datacenterkey := db.dataCenterKey, fqdn := db.fqdn, status := db.status,
       allowlist := Untype(db.allowlist), connectionstring := connectionString)
  }

  /** Read stores the engine lower-cased, so "MySQL" and "mysql" are one
      engine and a second Read stores the same string. */
  lemma ReadEngineLowered(s: DatabaseState, db: DatabaseDetails, connectionString: string)
    ensures var r := ReadState(s, db, connectionString);
      ToLower(r.engine) == r.engine && ToLower(r.engine) == ToLower(db.engine)
  {
    ToLowerIdempotent(db.engine);
  }

  /** The allow list Read stores converts back to the API's list, so Update
      sends what Read saw. */
  lemma ReadAllowlistConverts(s: DatabaseState, db: DatabaseDetails, connectionString: string)
    ensures var r := ReadState(s, db, connectionString);
      FirstNonString(r.allowlist).None? && Strings(r.allowlist) == db.allowlist
  {
    ConvertUntyped(db.allowlist);
  }

  function ReadCalls(id: string, api: DatabaseApi): seq<DatabaseCall>
  {
    if api.details.Ok? then [GetDetails(id), GetConnectionString(id)] else [GetDetails(id)]
  }

  /** What a Read leaves for the database `id`. */
  predicate ReadDone(d: ResourceData<DatabaseState>, id: string, s: DatabaseState, api: DatabaseApi)
    reads d
  {
    if api.details.Ok? && api.connectionString.Ok? then
      d.id == id && d.state == ReadState(s, api.details.value, api.connectionString.value)
    else d.id == "" && d.state == s
  }

  /** resourceGlesysDatabaseRead: a failed details or connection-string
      fetch clears the id without an error. */
  method DatabaseRead(d: ResourceData<DatabaseState>, api: DatabaseApi) returns (diag: Outcome, calls: seq<DatabaseCall>)
    modifies d
    ensures diag == Pass
    ensures calls == ReadCalls(old(d.id), api)
    ensures ReadDone(d, old(d.id), old(d.state), api)
  {
    calls := [GetDetails(d.id)];
    if api.details.Err? {
      d.SetId("");
      return Pass, calls;
    }
    calls := calls + [GetConnectionString(d.id)];
    if api.connectionString.Err? {
      d.SetId("");
      return Pass, calls;
    }
    var database := api.details.value;
    d.state := d.state.(name := database.name);
    d.state := d.state.(engine := ToLower(database.engine));
    d.state := d.state.(engineversion := database.engineVersion);
    d.state := d.state.(datacenterkey := database.dataCenterKey);
    d.state := d.state.(fqdn := database.fqdn);
    d.state := d.state.(status := database.status);
    d.state := d.state.(allowlist := Untype(database.allowlist));
    d.state := d.state.(connectionstring := api.connectionString.value);
    diag := Pass;
  }

  // ---------------------------------------------------------------------------
  // Create, updateAllowlist, Update, Delete
  // ---------------------------------------------------------------------------

  /** The allow list Create sends: nil when the conversion fails, whose
      error Create drops. */
  function CreateAllowList(raw: seq<Untyped>): Option<seq<string>>
  {
    if FirstNonString(raw).None? then Some(Strings(raw)) else None
  }

  function CreateParams(s: DatabaseState): CreateDatabaseParams
  {
    CreateDatabaseParams(s.name, s.datacenterkey, s.engine, s.engineversion, s.plankey, CreateAllowList(s.allowlist))
  }

  /** resourceGlesysDatabaseCreate: create, take the id, wait until the
      database is RUNNING, then Read. */
  method DatabaseCreate(d: ResourceData<DatabaseState>, api: DatabaseApi) returns (diag: Outcome, calls: seq<DatabaseCall>)
    modifies d
    ensures var s := old(d.state);
      api.create.Err? ==>
        && diag == Fail("Error creating database " + s.name + ": " + api.create.error)
        && calls == [CreateDatabase(CreateParams(s))]
        && d.id == old(d.id) && d.state == s
    ensures api.create.Ok? ==>
      var s, id := old(d.state), api.create.value;
      var head := [CreateDatabase(CreateParams(s)), Wait(id, RunningWait)];
      if api.waitRunning.Failed? then
        && diag == Fail("error while waiting for Server (" + id + ") to be started: " + api.waitRunning.message)
        && calls == head && d.id == id && d.state == s
      else
        && diag == Pass
        && calls == head + ReadCalls(id, api)
        && ReadDone(d, id, s, api)
  {
    var allowlist, _ := ConvertResourceDataToListOfStrings(d.state.allowlist);
    var params := CreateDatabaseParams(d.state.name, d.state.datacenterkey, d.state.engine,
                                       d.state.engineversion, d.state.plankey, allowlist);
    calls := [CreateDatabase(params)];
    if api.create.Err? {
      return Fail("Error creating database " + params.name + ": " + api.create.error), calls;
    }
    d.SetId(api.create.value);
    calls := calls + [Wait(d.id, RunningWait)];
    if api.waitRunning.Failed? {
      return Fail("error while waiting for Server (" + d.id + ") to be started: " + api.waitRunning.message), calls;
    }
    var readCalls;
    diag, readCalls := DatabaseRead(d, api);
    calls := calls + readCalls;
  }

  /** updateAllowlist: convert the list (an error stops it before any call),
      send it, then wait until the database is RUNNING again. */
  method UpdateAllowlistOf(d: ResourceData<DatabaseState>, api: DatabaseApi) returns (diag: Outcome, calls: seq<DatabaseCall>)
    ensures var k := FirstNonString(d.state.allowlist);
      k.Some? ==>
        && diag == Fail("failed to convert allowlist: " + NotAStringError(k.value))
        && calls == []
    ensures FirstNonString(d.state.allowlist).None? ==>
      var head := [UpdateAllowlist(d.id, Strings(d.state.allowlist))];
      if api.updateAllowlist.Failed? then
        diag == Fail("failed to update allowlist: " + api.updateAllowlist.message) && calls == head
      else if api.waitRunning.Failed? then
        && diag == Fail("error while waiting for Server (" + d.id + ") to be started: " + api.waitRunning.message)
        && calls == head + [Wait(d.id, RunningWait)]
      else diag == Pass && calls == head + [Wait(d.id, RunningWait)]
  {
    var allowlist, err := ConvertResourceDataToListOfStrings(d.state.allowlist);
    if err.Some? {
      return Fail("failed to convert allowlist: " + err.value), [];
    }
    calls := [UpdateAllowlist(d.id, allowlist.value)];
    if api.updateAllowlist.Failed? {
      return Fail("failed to update allowlist: " + api.updateAllowlist.message), calls;
    }
    calls := calls + [Wait(d.id, RunningWait)];
    if api.waitRunning.Failed? {
      return Fail("error while waiting for Server (" + d.id + ") to be started: " + api.waitRunning.message), calls;
    }
    diag := Pass;
  }

  /** resourceGlesysDatabaseUpdate: runs updateAllowlist, whatever changed,
      and discards its diagnostics. */
  method DatabaseUpdate(d: ResourceData<DatabaseState>, api: DatabaseApi) returns (diag: Outcome, calls: seq<DatabaseCall>)
    ensures diag == Pass
    ensures FirstNonString(d.state.allowlist).Some? ==> calls == []
    ensures FirstNonString(d.state.allowlist).None? ==>
      calls == [UpdateAllowlist(d.id, Strings(d.state.allowlist))]
               + (if api.updateAllowlist.Failed? then [] else [Wait(d.id, RunningWait)])
  {
    var _, allowlistCalls := UpdateAllowlistOf(d, api);
    calls := allowlistCalls;
    diag := Pass;
  }

  /** resourceGlesysDatabaseDelete: the id is cleared only once the
      database is deleted. */
  method DatabaseDelete(d: ResourceData<DatabaseState>, api: DatabaseApi) returns (diag: Outcome, calls: seq<DatabaseCall>)
    modifies d
    ensures calls == [DeleteDatabase(old(d.id))]
    ensures api.delete.Failed? ==> diag == Fail("Error deleting database: " + api.delete.message) && d.id == old(d.id)
    ensures api.delete.Succeeded? ==> diag == Pass && d.id == ""
    ensures d.state == old(d.state)
  {
    calls := [DeleteDatabase(d.id)];
    if api.delete.Failed? {
      return Fail("Error deleting database: " + api.delete.message), calls;
    }
    d.SetId("");
    diag := Pass;
  }
}
