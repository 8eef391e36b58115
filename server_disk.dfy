/** resource_glesys_server_disk.go: an additional disk of a server. The
    resource id is the disk's id; `serverid` names the server. */
module ServerDisk {
  import opened Wrappers
  import opened GoStrings
  import opened Lists
  import opened ResourceState
  import opened Waiting
  import Server

  /** The resource's attributes besides the id. */
  datatype DiskState = DiskState(name: string, size: int, serverid: string, scsiid: int)

  datatype CreateServerDiskParams = CreateServerDiskParams(name: string, sizeInGib: int, serverId: string)

  /** The one params value Update fills in and sends twice. */
  datatype EditServerDiskParams = EditServerDiskParams(id: string, name: string, sizeInGib: int)

  /** The answers the API gives during one handler run. */
  datatype DiskApi = DiskApi(
    waitUnlocked: CallStatus,
    create: Result<string, string>,
    details: Result<Server.ServerDetails, string>,
    updateName: CallStatus,
    reconfigure: CallStatus,
    delete: CallStatus)

  datatype DiskCall =
    | Wait(serverId: string, request: WaitRequest)
    | CreateDisk(createParams: CreateServerDiskParams)
    | GetServerDetails(serverId: string)
    | UpdateName(nameParams: EditServerDiskParams)
    | Reconfigure(sizeParams: EditServerDiskParams)
    | DeleteDisk(diskId: string)

  // ---------------------------------------------------------------------------
  // Import
  // ---------------------------------------------------------------------------

  datatype ImportedId = Unchanged | Imported(serverid: string, diskId: string) | NotEnoughParameters(message: string)

  /** A Go `%s` rendering of a list of strings. */
  function GoList(s: seq<string>): string
  {
    "[" + SpaceSeparated(s) + "]"
  }

  function SpaceSeparated(s: seq<string>): string
  {
    if s == [] then "" else if |s| == 1 then s[0] else s[0] + " " + SpaceSeparated(s[1..])
  }

  /** resourceGleSYSServerDiskImport's parsing of "serverid,diskid": an id
      without a comma is kept as it is; otherwise the first piece becomes
      `serverid` and the second the id. Its "not enough parameters" guard
      can never fire: a string with a comma splits into two pieces or more. */
  function ParseImportId(id: string): (r: ImportedId)
    ensures r.Unchanged? <==> ',' !in id
    ensures !r.NotEnoughParameters?
    ensures r.Imported? ==> ',' !in r.serverid && ',' !in r.diskId
  {
    if ',' !in id then Unchanged
    else
      var s := Split(id, ',');
      if |s| < 2 then NotEnoughParameters("not enough parameters ( <serverid>,<diskid> ) : " + GoList(s))
      else Imported(s[0], s[1])
  }

  /** "serverid,diskid" imports as that server and disk. */
  lemma ImportRoundTrip(serverid: string, diskId: string)
    requires ',' !in serverid && ',' !in diskId
    ensures ParseImportId(serverid + [','] + diskId) == Imported(serverid, diskId)
  {
    SplitPair(serverid, diskId, ',');
  }

  /** resourceGleSYSServerDiskImport on the store. */
  method DiskImport(d: ResourceData<DiskState>) returns (diag: Outcome)
    modifies d
    ensures diag == Pass
    ensures var r := ParseImportId(old(d.id));
      r.Imported? ==> d.id == r.diskId && d.state == old(d.state).(serverid := r.serverid)
    ensures ',' !in old(d.id) ==> d.id == old(d.id) && d.state == old(d.state)
  {
    if ',' in d.id {
      var s := Split(d.id, ',');
      if |s| < 2 {
        assert false;
      }
      d.SetId(s[1]);
      d.state := d.state.(serverid := s[0]);
    }
    diag := Pass;
  }

  // ---------------------------------------------------------------------------
  // serverdiskStateRefresh and the wait
  // ---------------------------------------------------------------------------

  /** serverdiskStateRefresh: the server's lock flag as "true"/"false", or
      an error when its details cannot be fetched. */
  function DiskStateRefresh(serverId: string, details: Result<Server.ServerDetails, string>): (r: Refresh<Server.ServerDetails>)
    ensures r.RefreshFailed? <==> details.Err?
    ensures details.Ok? ==> r == Refreshed(Some(details.value), FormatBool(details.value.isLocked))
    ensures details.Err? ==>
      r.message == "error retrieving server details for " + serverId + " : " + details.error
  {
    if details.Err? then RefreshFailed("error retrieving server details for " + serverId + " : " + details.error)
    else Refreshed(Some(details.value), FormatBool(details.value.isLocked))
  }

  /** waitForServerLocked as Create calls it: until unlocked, 10 minute
      timeout, 10 s delay, 3 s minimum poll interval, 60 not-found checks. */
  const UnlockedWait: WaitRequest := WaitRequest("islocked", "false", ["true"], 10, 10, 3, 60)

  /** The wait ends exactly on an unlocked server and keeps polling a
      locked one. */
  lemma WaitObservesLock(serverId: string, srv: Server.ServerDetails)
    ensures DiskStateRefresh(serverId, Ok(srv)).state == UnlockedWait.target <==> !srv.isLocked
    ensures DiskStateRefresh(serverId, Ok(srv)).state in UnlockedWait.pending <==> srv.isLocked
  {
  }

  // ---------------------------------------------------------------------------
  // Read
  // ---------------------------------------------------------------------------

  function HasDiskId(id: string): Server.AdditionalDisk -> bool
  {
    (disk: Server.AdditionalDisk) => disk.id == id
  }

  /** The attributes after Read's loop has copied `found`, if anything. */
  function CopyDisk(s: DiskState, found: Option<Server.AdditionalDisk>): DiskState
  {
    if found.None? then s
    else s.(name := found.value.name, size := found.value.sizeInGib, scsiid := found.value.scsiId)
  }

  /** Read copies the last of the server's disks with the resource's id, and
      leaves the attributes alone when the server has no such disk. */
  lemma ReadCopiesDisk(s: DiskState, disks: seq<Server.AdditionalDisk>, id: string)
    ensures forall i :: 0 <= i < |disks| && disks[i].id == id
                        && (forall j :: i < j < |disks| ==> disks[j].id != id) ==>
      var t := CopyDisk(s, LastWhere(disks, HasDiskId(id)));
      t == s.(name := disks[i].name, size := disks[i].sizeInGib, scsiid := disks[i].scsiId)
    ensures (forall i :: 0 <= i < |disks| ==> disks[i].id != id) ==>
      CopyDisk(s, LastWhere(disks, HasDiskId(id))) == s
  {
    forall i | 0 <= i < |disks| && disks[i].id == id && (forall j :: i < j < |disks| ==> disks[j].id != id)
      ensures LastWhere(disks, HasDiskId(id)) == Some(disks[i])
    {
      LastWhereAt(disks, HasDiskId(id), i);
    }
  }

  /** What a Read leaves for the disk `id`. */
  predicate ReadDone(d: ResourceData<DiskState>, id: string, s: DiskState, api: DiskApi)
    reads d
  {
    if api.details.Ok? then d.id == id && d.state == CopyDisk(s, LastWhere(api.details.value.additionalDisks, HasDiskId(id)))
    else d.id == "" && d.state == s
  }

  /** resourceGlesysServerDiskRead: a failed server fetch clears the id
      without an error; otherwise the matching disk is copied. */
  method DiskRead(d: ResourceData<DiskState>, api: DiskApi) returns (diag: Outcome, calls: seq<DiskCall>)
    modifies d
    ensures diag == Pass
    ensures calls == [GetServerDetails(old(d.state).serverid)]
    ensures ReadDone(d, old(d.id), old(d.state), api)
  {
    calls := [GetServerDetails(d.state.serverid)];
    if api.details.Err? {
      d.SetId("");
      return Pass, calls;
    }
    var disks := api.details.value.additionalDisks;
    ghost var s0 := d.state;
    var i := 0;
    while i < |disks|
      invariant 0 <= i <= |disks|
      invariant d.id == old(d.id)
      invariant d.state == CopyDisk(s0, LastWhere(disks[..i], HasDiskId(d.id)))
    {
      var n := disks[i];
      assert disks[..i + 1] == disks[..i] + [n];
      LastWhereSnoc(disks[..i], n, HasDiskId(d.id));
      if n.id == d.id {
        d.state := d.state.(name := n.name);
        d.state := d.state.(size := n.sizeInGib);
        d.state := d.state.(scsiid := n.scsiId);
      }
      i := i + 1;
    }
    assert disks[..i] == disks;
    diag := Pass;
  }

  // ---------------------------------------------------------------------------
  // Create, Update, Delete
  // ---------------------------------------------------------------------------

  function CreateParams(s: DiskState): CreateServerDiskParams
  {
    CreateServerDiskParams(s.name, s.size, s.serverid)
  }

  /** resourceGlesysServerDiskCreate: wait until the server is unlocked,
      only then create the disk, take its id, and Read. */
  method DiskCreate(d: ResourceData<DiskState>, api: DiskApi) returns (diag: Outcome, calls: seq<DiskCall>)
    modifies d
    ensures var s := old(d.state);
      api.waitUnlocked.Failed? ==>
        && diag == Fail("disk: error while waiting for Server (" + s.serverid + ") to be completed: "
                        + api.waitUnlocked.message)
        && calls == [Wait(s.serverid, UnlockedWait)]
        && d.id == old(d.id) && d.state == s
    ensures var s := old(d.state);
      api.waitUnlocked.Succeeded? && api.create.Err? ==>
        && diag == Fail("error creating disk: " + api.create.error)
        && calls == [Wait(s.serverid, UnlockedWait), CreateDisk(CreateParams(s))]
        && d.id == old(d.id) && d.state == s
    ensures var s := old(d.state);
      api.waitUnlocked.Succeeded? && api.create.Ok? ==>
        && diag == Pass
        && calls == [Wait(s.serverid, UnlockedWait), CreateDisk(CreateParams(s)), GetServerDetails(s.serverid)]
        && ReadDone(d, api.create.value, s, api)
  {
    var params := CreateParams(d.state);
    calls := [Wait(params.serverId, UnlockedWait)];
    if api.waitUnlocked.Failed? {
      return Fail("disk: error while waiting for Server (" + params.serverId + ") to be completed: "
                  + api.waitUnlocked.message), calls;
    }
    calls := calls + [CreateDisk(params)];
    if api.create.Err? {
      return Fail("error creating disk: " + api.create.error), calls;
    }
    d.SetId(api.create.value);
    var readCalls;
    diag, readCalls := DiskRead(d, api);
    calls := calls + readCalls;
  }

  /** The calls Update makes for disk `id`, in order: a rename iff the name
      changed, a resize iff the size changed. The resize reuses the rename's
      params, so it carries the new name when both changed. */
  function UpdateCalls(id: string, prior: DiskState, now: DiskState): (calls: seq<DiskCall>)
    ensures (exists p :: UpdateName(p) in calls) <==> now.name != prior.name
    ensures (exists p :: Reconfigure(p) in calls) <==> now.size != prior.size
    ensures forall i :: 0 <= i < |calls| && calls[i].Reconfigure? ==>
      calls[i].sizeParams.sizeInGib == now.size
      && calls[i].sizeParams.name == (if now.name != prior.name then now.name else "")
    ensures |calls| <= 2
    ensures |calls| == 2 ==> calls[0].UpdateName? && calls[1].Reconfigure?
    ensures forall p :: UpdateName(p) in calls ==> p == EditServerDiskParams(id, now.name, 0)
    ensures forall i :: 0 <= i < |calls| && calls[i].Reconfigure? ==> calls[i].sizeParams.id == id
  {
    var renamed := now.name != prior.name;
    var rename := EditServerDiskParams(id, now.name, 0);
    var resize := EditServerDiskParams(id, if renamed then now.name else "", now.size);
    var calls := (if renamed then [UpdateName(rename)] else [])
                 + (if now.size != prior.size then [Reconfigure(resize)] else []);
    assert renamed ==> calls[0] == UpdateName(rename);
    assert now.size != prior.size ==> calls[|calls| - 1] == Reconfigure(resize);
    calls
  }

  /** resourceGlesysServerDiskUpdate. The resize failure is reported with
      the rename's message, as the source does. */
  method DiskUpdate(d: ResourceData<DiskState>, api: DiskApi) returns (diag: Outcome, calls: seq<DiskCall>)
    modifies d
    ensures var s, planned := old(d.state), UpdateCalls(old(d.id), d.prior, old(d.state));
      var renamed := s.name != d.prior.name;
      if renamed && api.updateName.Failed? then
        && diag == Fail("Error updating ServerDisk Name: " + api.updateName.message)
        && calls == planned[..1] && d.id == old(d.id) && d.state == s
      else if s.size != d.prior.size && api.reconfigure.Failed? then
        && diag == Fail("Error updating ServerDisk Name: " + api.reconfigure.message)
        && calls == planned && d.id == old(d.id) && d.state == s
      else
        && diag == Pass
        && calls == planned + [GetServerDetails(s.serverid)]
        && ReadDone(d, old(d.id), s, api)
  {
    var params := EditServerDiskParams(d.id, "", 0);
    calls := [];
    if d.state.name != d.prior.name {
      params := params.(name := d.state.name);
      calls := calls + [UpdateName(params)];
      if api.updateName.Failed? {
        return Fail("Error updating ServerDisk Name: " + api.updateName.message), calls;
      }
    }
    if d.state.size != d.prior.size {
      params := params.(sizeInGib := d.state.size);
      calls := calls + [Reconfigure(params)];
      if api.reconfigure.Failed? {
        return Fail("Error updating ServerDisk Name: " + api.reconfigure.message), calls;
      }
    }
    var readCalls;
    diag, readCalls := DiskRead(d, api);
    calls := calls + readCalls;
  }

  /** resourceGlesysServerDiskDelete: the id is cleared only once the disk
      is deleted. */
  method DiskDelete(d: ResourceData<DiskState>, api: DiskApi) returns (diag: Outcome, calls: seq<DiskCall>)
    modifies d
    ensures calls == [DeleteDisk(old(d.id))]
    ensures api.delete.Failed? ==>
      diag == Fail("Error deleting ServerDisk (" + old(d.id) + "): " + api.delete.message) && d.id == old(d.id)
    ensures api.delete.Succeeded? ==> diag == Pass && d.id == ""
    ensures d.state == old(d.state)
  {
    var diskId := d.id;
    calls := [DeleteDisk(diskId)];
    if api.delete.Failed? {
      return Fail("Error deleting ServerDisk (" + diskId + "): " + api.delete.message), calls;
    }
    d.SetId("");
    diag := Pass;
  }
}
