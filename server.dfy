/** resource_glesys_server.go: the virtual server resource. */
module Server {
  import opened Wrappers
  import opened GoStrings
  import opened Lists
  import opened ResourceState
  import opened Waiting

  // ---------------------------------------------------------------------------
  // Resource attributes
  // ---------------------------------------------------------------------------

  /** One `user` block: a login with its SSH keys. */
  datatype UserBlock = UserBlock(username: string, password: string, publickeys: seq<string>)

  /** One `backups_schedule` block. */
  datatype ScheduleBlock = ScheduleBlock(frequency: string, retention: int)

  /** One element of the computed `network_adapters` list. */
  datatype AdapterBlock = AdapterBlock(id: string, adaptertype: string, bandwidth: int, name: string, networkid: string)

  /** The server resource's attributes. The `user` and `backups_schedule`
      sets are taken in the order the SDK lists them. */
  datatype ServerState = ServerState(
    bandwidth: int,
    campaigncode: string,
    cloudconfig: string,
    cloudconfigparams: map<string, string>,
    cpu: int,
    datacenter: string,
    description: string,
    hostname: string,
    ipv4Address: string,
    ipv6Address: string,
    memory: int,
    password: string,
    platform: string,
    publickey: string,
    islocked: bool,
    isrunning: bool,
    storage: int,
    template: string,
    extraDisks: seq<string>,
    primaryNetworkadapterNetwork: string,
    networkAdapters: seq<AdapterBlock>,
    user: seq<UserBlock>,
    backupsSchedule: seq<ScheduleBlock>)

  // ---------------------------------------------------------------------------
  // API values
  // ---------------------------------------------------------------------------

  datatype User = User(username: string, password: string, publicKeys: seq<string>)

  datatype BackupSchedule = BackupSchedule(frequency: string, numberOfImagesToKeep: int)

  datatype IpEntry = IpEntry(version: int, address: string)

  datatype InitialTemplate = InitialTemplate(id: string, name: string, currentTags: seq<string>)

  datatype AdditionalDisk = AdditionalDisk(id: string, name: string, sizeInGib: int, scsiId: int)

  /** The fields of the API's server details that the provider reads. */
  datatype ServerDetails = ServerDetails(
    id: string,
    bandwidth: int,
    cpu: int,
    dataCenter: string,
    description: string,
    hostname: string,
    ipList: seq<IpEntry>,
    memory: int,
    platform: string,
    isLocked: bool,
    isRunning: bool,
    storage: int,
    template: string,
    initialTemplate: InitialTemplate,
    additionalDisks: seq<AdditionalDisk>,
    backupSchedules: seq<BackupSchedule>)

  datatype NetworkAdapter = NetworkAdapter(
    id: string, adapterType: string, bandwidth: int, name: string, networkId: string, isPrimary: bool)

  datatype CreateServerParams = CreateServerParams(
    bandwidth: int,
    campaignCode: string,
    cloudConfig: string,
    cloudConfigParams: map<string, string>,
    cpu: int,
    dataCenter: string,
    description: string,
    hostname: string,
    ipv4: string,
    ipv6: string,
    memory: int,
    password: string,
    platform: string,
    publicKey: string,
    storage: int,
    template: string,
    backup: seq<BackupSchedule>,
    users: seq<User>)

  /** A partial update: the API leaves a field at its zero value alone. */
  datatype EditServerParams = EditServerParams(
    cpu: int, description: string, bandwidth: int, hostname: string, memory: int,
    storage: int, backup: seq<BackupSchedule>)

  /** The answers the API gives during one handler run. */
  datatype ServerApi = ServerApi(
    create: Result<string, string>,
    waitRunning: CallStatus,
    waitUnlocked: CallStatus,
    details: Result<ServerDetails, string>,
    adapters: seq<NetworkAdapter>,
    editAdapter: CallStatus,
    edit: CallStatus,
    destroy: CallStatus)

  /** The API requests a handler issues, in order. */
  datatype ServerCall =
    | CreateServer(params: CreateServerParams)
    | Wait(serverId: string, request: WaitRequest)
    | GetDetails(serverId: string)
    | ListNetworkAdapters(serverId: string)
    | EditNetworkAdapter(adapterId: string, networkId: string)
    | EditServer(serverId: string, editParams: EditServerParams)
    | DestroyServer(serverId: string, keepIp: bool)

  // ---------------------------------------------------------------------------
  // expandUsers / expandBackupSchedules
  // ---------------------------------------------------------------------------

  /** expandUsers: one User per block, in the same order, each with its
      name, password and keys in order; never an error. */
  method ExpandUsers(config: seq<UserBlock>) returns (users: seq<User>, err: Option<string>)
    ensures err == None
    ensures |users| == |config|
    ensures forall i :: 0 <= i < |config| ==>
      && users[i].username == config[i].username
      && users[i].password == config[i].password
      && users[i].publicKeys == config[i].publickeys
  {
    users := [];
    var i := 0;
    while i < |config|
      invariant 0 <= i <= |config|
      invariant |users| == i
      invariant forall k :: 0 <= k < i ==>
        && users[k].username == config[k].username
        && users[k].password == config[k].password
        && users[k].publicKeys == config[k].publickeys
    {
      var user := config[i];
      var pks: seq<string> := [];
      var j := 0;
      while j < |user.publickeys|
        invariant 0 <= j <= |user.publickeys|
        invariant pks == user.publickeys[..j]
      {
        pks := pks + [user.publickeys[j]];
        j := j + 1;
      }
      assert user.publickeys[..j] == user.publickeys;
      users := users + [User(user.username, user.password, pks)];
      i := i + 1;
    }
    err := None;
  }

  /** expandBackupSchedules: frequency and retention of each block, in the
      same order; never an error. */
  method ExpandBackupSchedules(config: seq<ScheduleBlock>) returns (schedules: seq<BackupSchedule>, err: Option<string>)
    ensures err == None
    ensures |schedules| == |config|
    ensures forall i :: 0 <= i < |config| ==>
      schedules[i].frequency == config[i].frequency && schedules[i].numberOfImagesToKeep == config[i].retention
  {
    schedules := [];
    var i := 0;
    while i < |config|
      invariant 0 <= i <= |config|
      invariant |schedules| == i
      invariant forall k :: 0 <= k < i ==>
        schedules[k].frequency == config[k].frequency && schedules[k].numberOfImagesToKeep == config[k].retention
    {
      var schedule := config[i];
      schedules := schedules + [BackupSchedule(schedule.frequency, schedule.retention)];
      i := i + 1;
    }
    err := None;
  }

  function UsersOf(config: seq<UserBlock>): seq<User>
  {
    seq(|config|, i requires 0 <= i < |config| => User(config[i].username, config[i].password, config[i].publickeys))
  }

  function SchedulesOf(config: seq<ScheduleBlock>): seq<BackupSchedule>
  {
    seq(|config|, i requires 0 <= i < |config| => BackupSchedule(config[i].frequency, config[i].retention))
  }

  /** buildServerParamStruct with the expanded schedules and users, before
      the client library fills in its defaults. */
  function CreateParams(s: ServerState): CreateServerParams
  {
    CreateServerParams(
      s.bandwidth, s.campaigncode, s.cloudconfig, s.cloudconfigparams, s.cpu, s.datacenter,
      s.description, s.hostname, s.ipv4Address, s.ipv6Address, s.memory, s.password, s.platform,
      s.publickey, s.storage, s.template, SchedulesOf(s.backupsSchedule), UsersOf(s.user))
  }

  // ---------------------------------------------------------------------------
  // getTemplate
  // ---------------------------------------------------------------------------

  /** The template to keep in state: the configured name when the API knows
      the server's initial template by that tag or id, else the API's name. */
  function GetTemplate(original: string, srv: ServerDetails): (r: string)
    ensures original in srv.initialTemplate.currentTags ==> r == original
    ensures original == srv.initialTemplate.id ==> r == original
    ensures original !in srv.initialTemplate.currentTags && original != srv.initialTemplate.id
            ==> r == srv.template
  {
    if original in srv.initialTemplate.currentTags then original
    else if original == srv.initialTemplate.id then original
    else srv.template
  }

  /** A second Read of the same server keeps the template a first Read stored,
      so the reconciliation does not flip-flop. */
  lemma GetTemplateStable(original: string, srv: ServerDetails)
    ensures GetTemplate(GetTemplate(original, srv), srv) == GetTemplate(original, srv)
  {
  }

  function TemplateCase(template: string, id: string, tags: seq<string>): ServerDetails
  {
    ServerDetails("", 0, 0, "", "", "", [], 0, "", false, false, 0, template,
                  InitialTemplate(id, template, tags), [], [])
  }

  /** The three cases of the table-driven unit test. */
  lemma GetTemplateTestTable()
    ensures GetTemplate("ubuntu-20-04",
      TemplateCase("Ubuntu 20.04 LTS (Focal Fossa)", "", ["ubuntu", "ubuntu-lts", "ubuntu-20-04"]))
      == "ubuntu-20-04"
    ensures GetTemplate("fc5d38f7-4c9d-4920-a3a0-3252f71fe2c5",
      TemplateCase("Ubuntu 20.04 LTS (Focal Fossa)", "fc5d38f7-4c9d-4920-a3a0-3252f71fe2c5",
                   ["ubuntu", "ubuntu-lts", "ubuntu-20-04"]))
      == "fc5d38f7-4c9d-4920-a3a0-3252f71fe2c5"
    ensures GetTemplate("Ubuntu 20.04 LTS 64-bit", TemplateCase("Ubuntu 20.04 LTS 64-bit", "", []))
      == "Ubuntu 20.04 LTS 64-bit"
  {
    assert "ubuntu-20-04" in ["ubuntu", "ubuntu-lts", "ubuntu-20-04"];
  }

  // ---------------------------------------------------------------------------
  // serverStateRefresh and the waits
  // ---------------------------------------------------------------------------

  /** serverStateRefresh(attr): the lock or running flag as "true"/"false";
      no snapshot and an empty state for any other attribute; an error when
      the details cannot be fetched. */
  function ServerStateRefresh(id: string, attr: string, details: Result<ServerDetails, string>): (r: Refresh<ServerDetails>)
    ensures r.RefreshFailed? <==> details.Err?
    ensures details.Ok? && attr == "islocked" ==>
      r == Refreshed(Some(details.value), FormatBool(details.value.isLocked))
    ensures details.Ok? && attr == "isrunning" ==>
      r == Refreshed(Some(details.value), FormatBool(details.value.isRunning))
    ensures details.Ok? && attr != "islocked" && attr != "isrunning" ==> r == Refreshed(None, "")
  {
    if details.Err? then RefreshFailed("error retrieving Server (" + id + "): " + details.error)
    else if attr == "islocked" then Refreshed(Some(details.value), FormatBool(details.value.isLocked))
    else if attr == "isrunning" then Refreshed(Some(details.value), FormatBool(details.value.isRunning))
    else Refreshed(None, "")
  }

  /** waitForServerAttribute: 20 minute timeout, 6 s delay, 3 s minimum
      poll interval, NotFoundChecks left unset (0 here; the SDK then uses 20). */
  function ServerWait(attribute: string, target: string, pending: seq<string>): WaitRequest
  {
    WaitRequest(attribute, target, pending, 20, 6, 3, 0)
  }

  const RunningWait: WaitRequest := ServerWait("isrunning", "true", ["false"])
  const UnlockedWait: WaitRequest := ServerWait("islocked", "false", ["true"])

  /** On every snapshot the refresh reports either the awaited state or a
      pending one: the running wait ends exactly on a running server, the
      unlock wait exactly on an unlocked one. */
  lemma WaitsObserveTheirFlag(id: string, srv: ServerDetails)
    ensures ServerStateRefresh(id, RunningWait.attribute, Ok(srv)).state == RunningWait.target <==> srv.isRunning
    ensures ServerStateRefresh(id, RunningWait.attribute, Ok(srv)).state in RunningWait.pending <==> !srv.isRunning
    ensures ServerStateRefresh(id, UnlockedWait.attribute, Ok(srv)).state == UnlockedWait.target <==> !srv.isLocked
    ensures ServerStateRefresh(id, UnlockedWait.attribute, Ok(srv)).state in UnlockedWait.pending <==> srv.isLocked
  {
  }

  // ---------------------------------------------------------------------------
  // Read
  // ---------------------------------------------------------------------------

  function HasVersion(version: int): IpEntry -> bool
  {
    (e: IpEntry) => e.version == version
  }

  /** The address of the last IPList entry of the given version. */
  function LastAddress(ips: seq<IpEntry>, version: int): Option<string>
  {
    var e := LastWhere(ips, HasVersion(version));
    if e.Some? then Some(e.value.address) else None
  }

  function OrElse(v: Option<string>, otherwise: string): string
  {
    if v.Some? then v.value else otherwise
  }

  /** Read's IPList loop over `ips`: each entry overwrites the address
      attribute of its version. */
  function WithAddresses(s: ServerState, ips: seq<IpEntry>): ServerState
    decreases |ips|
  {
    if ips == [] then s
    else
      var t := WithAddresses(s, ips[..|ips| - 1]);
      var e := ips[|ips| - 1];
      var t4 := if e.version == 4 then t.(ipv4Address := e.address) else t;
      if e.version == 6 then t4.(ipv6Address := e.address) else t4
  }

  /** After the loop each address attribute holds the last address of its
      version, or its earlier value when there is none; nothing else changes. */
  lemma {:induction false} WithAddressesLast(s: ServerState, ips: seq<IpEntry>)
    ensures WithAddresses(s, ips) == s.(ipv4Address := OrElse(LastAddress(ips, 4), s.ipv4Address),
                                        ipv6Address := OrElse(LastAddress(ips, 6), s.ipv6Address))
    decreases |ips|
  {
    if ips != [] {
      var n := |ips| - 1;
      WithAddressesLast(s, ips[..n]);
      assert ips == ips[..n] + [ips[n]];
      LastWhereSnoc(ips[..n], ips[n], HasVersion(4));
      LastWhereSnoc(ips[..n], ips[n], HasVersion(6));
    }
  }

  /** The adapter Read and setServerNetworkAdapter treat as primary. */
  predicate IsPrimaryAdapter(a: NetworkAdapter)
  {
    a.name == "Network adapter 1" || a.isPrimary
  }

  function PrimaryAdapter(adapters: seq<NetworkAdapter>): Option<NetworkAdapter>
  {
    LastWhere(adapters, IsPrimaryAdapter)
  }

  /** The primary-adapter part of Read's adapter loop: each primary adapter
      overwrites primary_networkadapter_network with its network. */
  function WithPrimary(s: ServerState, adapters: seq<NetworkAdapter>): ServerState
    decreases |adapters|
  {
    if adapters == [] then s
    else
      var t := WithPrimary(s, adapters[..|adapters| - 1]);
      var a := adapters[|adapters| - 1];
      if IsPrimaryAdapter(a) then t.(primaryNetworkadapterNetwork := a.networkId) else t
  }

  /** After the adapter loop the attribute holds the network of the last
      primary adapter, and keeps its value when there is none. */
  lemma {:induction false} WithPrimaryLast(s: ServerState, adapters: seq<NetworkAdapter>)
    ensures var p := PrimaryAdapter(adapters);
      WithPrimary(s, adapters)
        == s.(primaryNetworkadapterNetwork := if p.Some? then p.value.networkId else s.primaryNetworkadapterNetwork)
    decreases |adapters|
  {
    if adapters != [] {
      var n := |adapters| - 1;
      WithPrimaryLast(s, adapters[..n]);
      assert adapters == adapters[..n] + [adapters[n]];
      LastWhereSnoc(adapters[..n], adapters[n], IsPrimaryAdapter);
    }
  }

  function ToAdapterBlock(v: NetworkAdapter): AdapterBlock
  {
    AdapterBlock(v.id, v.adapterType, v.bandwidth, v.name, v.networkId)
  }

  function AdapterBlocks(adapters: seq<NetworkAdapter>): seq<AdapterBlock>
  {
    seq(|adapters|, i requires 0 <= i < |adapters| => ToAdapterBlock(adapters[i]))
  }

  function ScheduleBlocks(schedules: seq<BackupSchedule>): seq<ScheduleBlock>
  {
    seq(|schedules|, i requires 0 <= i < |schedules| =>
      ScheduleBlock(schedules[i].frequency, schedules[i].numberOfImagesToKeep))
  }

  function DiskIds(disks: seq<AdditionalDisk>): seq<string>
  {
    seq(|disks|, i requires 0 <= i < |disks| => disks[i].id)
  }

  /** The attributes Read writes before the IPList loop. */
  function ReadHead(s: ServerState, srv: ServerDetails): ServerState
  {
    s.(bandwidth := if srv.platform != "KVM" then srv.bandwidth else s.bandwidth,
       cpu := srv.cpu, datacenter := srv.dataCenter, description := srv.description,
       hostname := srv.hostname)
  }

  /** The attributes Read writes between the IPList and the adapter loops. */
  function ReadMiddle(s: ServerState, srv: ServerDetails): ServerState
  {
    s.(memory := srv.memory, platform := srv.platform, islocked := srv.isLocked,
       isrunning := srv.isRunning, storage := srv.storage,
       template := GetTemplate(s.template, srv),
       extraDisks := DiskIds(srv.additionalDisks),
       backupsSchedule := ScheduleBlocks(srv.backupSchedules))
  }

  /** The attributes a successful Read leaves, from the prior ones, the
      server details and the adapter listing, in the order Read writes them. */
  function ServerReadState(s: ServerState, srv: ServerDetails, adapters: seq<NetworkAdapter>): ServerState
  {
    WithPrimary(ReadMiddle(WithAddresses(ReadHead(s, srv), srv.ipList), srv), adapters)
      .(networkAdapters := AdapterBlocks(adapters))
  }

  /** ServerReadState with both loops in closed form. */
  lemma ReadClosed(s: ServerState, srv: ServerDetails, adapters: seq<NetworkAdapter>)
    ensures var h := ReadHead(s, srv);
            var p := PrimaryAdapter(adapters);
      ServerReadState(s, srv, adapters)
        == ReadMiddle(h.(ipv4Address := OrElse(LastAddress(srv.ipList, 4), s.ipv4Address),
                         ipv6Address := OrElse(LastAddress(srv.ipList, 6), s.ipv6Address)), srv)
             .(primaryNetworkadapterNetwork := if p.Some? then p.value.networkId else s.primaryNetworkadapterNetwork,
               networkAdapters := AdapterBlocks(adapters))
  {
    var h := ReadHead(s, srv);
    WithAddressesLast(h, srv.ipList);
    WithPrimaryLast(ReadMiddle(WithAddresses(h, srv.ipList), srv), adapters);
  }

  /** Entry `i` is the last one of the version in the list. */
  predicate LastOfVersion(ips: seq<IpEntry>, i: int, version: int)
  {
    && 0 <= i < |ips|
    && ips[i].version == version
    && forall j :: i < j < |ips| ==> ips[j].version != version
  }

  predicate NoneOfVersion(ips: seq<IpEntry>, version: int)
  {
    forall i :: 0 <= i < |ips| ==> ips[i].version != version
  }

  /** LastAddress names the last entry of the version, or nothing. */
  lemma {:induction false} LastAddressIs(ips: seq<IpEntry>, version: int)
    ensures NoneOfVersion(ips, version) ==> LastAddress(ips, version) == None
    ensures forall i :: LastOfVersion(ips, i, version) ==> LastAddress(ips, version) == Some(ips[i].address)
    decreases |ips|
  {
    if ips != [] {
      var n := |ips| - 1;
      if ips[n].version != version {
        LastAddressIs(ips[..n], version);
        forall i | LastOfVersion(ips, i, version)
          ensures LastAddress(ips, version) == Some(ips[i].address)
        {
          assert LastOfVersion(ips[..n], i, version);
        }
      }
    }
  }

  /** ipv4_address holds the address of the last version-4 entry and
      ipv6_address that of the last version-6 entry; with no entry of a
      version its attribute is left as it was. */
  lemma ReadAddresses(s: ServerState, srv: ServerDetails, adapters: seq<NetworkAdapter>)
    ensures var r := ServerReadState(s, srv, adapters);
      NoneOfVersion(srv.ipList, 4) ==> r.ipv4Address == s.ipv4Address
    ensures var r := ServerReadState(s, srv, adapters);
      forall i :: LastOfVersion(srv.ipList, i, 4) ==> r.ipv4Address == srv.ipList[i].address
    ensures var r := ServerReadState(s, srv, adapters);
      NoneOfVersion(srv.ipList, 6) ==> r.ipv6Address == s.ipv6Address
    ensures var r := ServerReadState(s, srv, adapters);
      forall i :: LastOfVersion(srv.ipList, i, 6) ==> r.ipv6Address == srv.ipList[i].address
  {
    ReadClosed(s, srv, adapters);
    LastAddressIs(srv.ipList, 4);
    LastAddressIs(srv.ipList, 6);
  }

  /** Bandwidth comes from the API except on KVM, where the API's value is
      wrong and the configured one is kept. */
  lemma ReadBandwidth(s: ServerState, srv: ServerDetails, adapters: seq<NetworkAdapter>)
    ensures srv.platform != "KVM" ==> ServerReadState(s, srv, adapters).bandwidth == srv.bandwidth
    ensures srv.platform == "KVM" ==> ServerReadState(s, srv, adapters).bandwidth == s.bandwidth
  {
    ReadClosed(s, srv, adapters);
  }

  /** The template is reconciled against the value held before the Read. */
  lemma ReadTemplate(s: ServerState, srv: ServerDetails, adapters: seq<NetworkAdapter>)
    ensures ServerReadState(s, srv, adapters).template == GetTemplate(s.template, srv)
  {
    ReadClosed(s, srv, adapters);
  }

  /** primary_networkadapter_network holds the network of the last adapter
      named "Network adapter 1" or flagged primary, and is left as it was
      when there is none. */
  lemma ReadPrimaryNetwork(s: ServerState, srv: ServerDetails, adapters: seq<NetworkAdapter>)
    ensures var p := PrimaryAdapter(adapters);
      p.Some? ==> ServerReadState(s, srv, adapters).primaryNetworkadapterNetwork == p.value.networkId
    ensures PrimaryAdapter(adapters).None? ==>
      ServerReadState(s, srv, adapters).primaryNetworkadapterNetwork == s.primaryNetworkadapterNetwork
  {
    ReadClosed(s, srv, adapters);
  }

  /** Reading the same server twice changes nothing the second time, so a
      refresh right after a refresh shows no drift. */
  lemma ReadIdempotent(s: ServerState, srv: ServerDetails, adapters: seq<NetworkAdapter>)
    ensures ServerReadState(ServerReadState(s, srv, adapters), srv, adapters) == ServerReadState(s, srv, adapters)
  {
    var r := ServerReadState(s, srv, adapters);
    ReadClosed(s, srv, adapters);
    ReadClosed(r, srv, adapters);
    GetTemplateStable(s.template, srv);
  }

  /** The calls Read issues for the server `id`. */
  function ReadCalls(id: string, api: ServerApi): seq<ServerCall>
  {
    if api.details.Ok? then [GetDetails(id), ListNetworkAdapters(id)] else [GetDetails(id)]
  }

  /** resourceGlesysServerRead. A failed details fetch clears the id and
      reports nothing; otherwise the attributes become ServerReadState. */
  method ServerRead(d: ResourceData<ServerState>, api: ServerApi) returns (diag: Outcome, calls: seq<ServerCall>)
    modifies d
    ensures diag == Pass
    ensures calls == ReadCalls(old(d.id), api)
    ensures api.details.Err? ==> d.id == "" && d.state == old(d.state)
    ensures api.details.Ok? ==>
      d.id == old(d.id) && d.state == ServerReadState(old(d.state), api.details.value, api.adapters)
  {
    calls := [GetDetails(d.id)];
    if api.details.Err? {
      d.SetId("");
      return Pass, calls;
    }
    var srv := api.details.value;
    if srv.platform != "KVM" {
      d.state := d.state.(bandwidth := srv.bandwidth);
    }
    d.state := d.state.(cpu := srv.cpu);
    d.state := d.state.(datacenter := srv.dataCenter);
    d.state := d.state.(description := srv.description);
    d.state := d.state.(hostname := srv.hostname);
    CopyAddresses(d, srv.ipList);
    d.state := d.state.(memory := srv.memory);
    d.state := d.state.(platform := srv.platform);
    d.state := d.state.(islocked := srv.isLocked);
    d.state := d.state.(isrunning := srv.isRunning);
    d.state := d.state.(storage := srv.storage);
    d.state := d.state.(template := GetTemplate(d.state.template, srv));
    var diskIds: seq<string> := [];
    var i := 0;
    while i < |srv.additionalDisks|
      invariant 0 <= i <= |srv.additionalDisks|
      invariant diskIds == DiskIds(srv.additionalDisks[..i])
    {
      diskIds := diskIds + [srv.additionalDisks[i].id];
      i := i + 1;
    }
    assert srv.additionalDisks[..i] == srv.additionalDisks;
    d.state := d.state.(extraDisks := diskIds);
    var backupSchedules: seq<ScheduleBlock> := [];
    i := 0;
    while i < |srv.backupSchedules|
      invariant 0 <= i <= |srv.backupSchedules|
      invariant backupSchedules == ScheduleBlocks(srv.backupSchedules[..i])
    {
      var bs := srv.backupSchedules[i];
      backupSchedules := backupSchedules + [ScheduleBlock(bs.frequency, bs.numberOfImagesToKeep)];
      i := i + 1;
    }
    assert srv.backupSchedules[..i] == srv.backupSchedules;
    d.state := d.state.(backupsSchedule := backupSchedules);
    calls := calls + [ListNetworkAdapters(d.id)];
    var adapters := CopyAdapters(d, api.adapters);
    d.state := d.state.(networkAdapters := adapters);
    return Pass, calls;
  }

  /** Read's loop over IPList: each IPv4 / IPv6 entry overwrites the
      address of its version. */
  method CopyAddresses(d: ResourceData<ServerState>, ips: seq<IpEntry>)
    modifies d
    ensures d.id == old(d.id)
    ensures d.state == WithAddresses(old(d.state), ips)
  {
    var i := 0;
    while i < |ips|
      invariant 0 <= i <= |ips|
      invariant d.id == old(d.id)
      invariant d.state == WithAddresses(old(d.state), ips[..i])
    {
      assert ips[..i + 1][..i] == ips[..i];
      if ips[i].version == 4 {
        d.state := d.state.(ipv4Address := ips[i].address);
      }
      if ips[i].version == 6 {
        d.state := d.state.(ipv6Address := ips[i].address);
      }
      i := i + 1;
    }
    assert ips[..i] == ips;
  }

  /** Read's loop over the network adapters: each primary adapter
      overwrites primary_networkadapter_network, and every adapter is
      collected for network_adapters. */
  method CopyAdapters(d: ResourceData<ServerState>, list: seq<NetworkAdapter>) returns (adapters: seq<AdapterBlock>)
    modifies d
    ensures adapters == AdapterBlocks(list)
    ensures d.id == old(d.id)
    ensures d.state == WithPrimary(old(d.state), list)
  {
    adapters := [];
    var i := 0;
    while i < |list|
      invariant 0 <= i <= |list|
      invariant d.id == old(d.id)
      invariant adapters == AdapterBlocks(list[..i])
      invariant d.state == WithPrimary(old(d.state), list[..i])
    {
      var v := list[i];
      assert list[..i + 1][..i] == list[..i];
      if v.name == "Network adapter 1" || v.isPrimary {
        d.state := d.state.(primaryNetworkadapterNetwork := v.networkId);
      }
      adapters := adapters + [AdapterBlock(v.id, v.adapterType, v.bandwidth, v.name, v.networkId)];
      i := i + 1;
    }
    assert list[..i] == list;
  }

  // ---------------------------------------------------------------------------
  // setServerNetworkAdapter
  // ---------------------------------------------------------------------------

  /** The adapter id setServerNetworkAdapter edits: that of the last
      primary adapter, or the empty id when there is none. */
  function AdapterIdOf(p: Option<NetworkAdapter>): string
  {
    if p.Some? then p.value.id else ""
  }

  /** setServerNetworkAdapter: list the adapters, then move the last one
      Read treats as primary to the configured network. A listing error is
      not modelled (the source ignores it and dereferences the result). */
  method SetServerNetworkAdapter(d: ResourceData<ServerState>, api: ServerApi) returns (status: CallStatus, calls: seq<ServerCall>)
    ensures status == api.editAdapter
    ensures calls == [ListNetworkAdapters(d.id),
                      EditNetworkAdapter(AdapterIdOf(PrimaryAdapter(api.adapters)), d.state.primaryNetworkadapterNetwork)]
  {
    var netadapterId := "";
    var i := 0;
    while i < |api.adapters|
      invariant 0 <= i <= |api.adapters|
      invariant netadapterId == AdapterIdOf(PrimaryAdapter(api.adapters[..i]))
    {
      var v := api.adapters[i];
      assert api.adapters[..i + 1] == api.adapters[..i] + [v];
      LastWhereSnoc(api.adapters[..i], v, IsPrimaryAdapter);
      if v.name == "Network adapter 1" || v.isPrimary {
        netadapterId := v.id;
      }
      i := i + 1;
    }
    assert api.adapters[..i] == api.adapters;
    calls := [ListNetworkAdapters(d.id), EditNetworkAdapter(netadapterId, d.state.primaryNetworkadapterNetwork)];
    status := api.editAdapter;
  }

  /** The adapter listing after the API has moved adapter `id` to `network`. */
  function AfterAdapterEdit(adapters: seq<NetworkAdapter>, id: string, network: string): seq<NetworkAdapter>
  {
    seq(|adapters|, i requires 0 <= i < |adapters| =>
      if adapters[i].id == id then adapters[i].(networkId := network) else adapters[i])
  }

  /** The adapter edited is the one a later Read reports: once the API has
      applied the edit, the primary adapter's network is the configured
      one, whenever the server has a primary adapter. */
  lemma {:induction false} AdapterEditIsRead(adapters: seq<NetworkAdapter>, network: string)
    requires PrimaryAdapter(adapters).Some?
    ensures var after := AfterAdapterEdit(adapters, AdapterIdOf(PrimaryAdapter(adapters)), network);
      PrimaryAdapter(after).Some? && PrimaryAdapter(after).value.networkId == network
    decreases |adapters|
  {
    var n := |adapters| - 1;
    var id := AdapterIdOf(PrimaryAdapter(adapters));
    var after := AfterAdapterEdit(adapters, id, network);
    assert adapters == adapters[..n] + [adapters[n]];
    assert after == AfterAdapterEdit(adapters[..n], id, network) + [after[n]];
    LastWhereSnoc(adapters[..n], adapters[n], IsPrimaryAdapter);
    LastWhereSnoc(AfterAdapterEdit(adapters[..n], id, network), after[n], IsPrimaryAdapter);
    if !IsPrimaryAdapter(adapters[n]) {
      AdapterEditIsRead(adapters[..n], network);
    }
  }

  /** The API as the Read after a successful adapter edit sees it: its own
      listing of the adapters shows the edited adapter on the new network. */
  function EditedApi(api: ServerApi, network: string): ServerApi
  {
    api.(adapters := AfterAdapterEdit(api.adapters, AdapterIdOf(PrimaryAdapter(api.adapters)), network))
  }

  /** So the Read that ends Create and Update reports the configured
      network, whenever the server has a primary adapter. */
  lemma ReadAfterAdapterEdit(s: ServerState, srv: ServerDetails, api: ServerApi, network: string)
    requires PrimaryAdapter(api.adapters).Some?
    ensures ServerReadState(s, srv, EditedApi(api, network).adapters).primaryNetworkadapterNetwork == network
  {
    AdapterEditIsRead(api.adapters, network);
    ReadPrimaryNetwork(s, srv, EditedApi(api, network).adapters);
  }

  // ---------------------------------------------------------------------------
  // Update's EditServerParams
  // ---------------------------------------------------------------------------

  /** The editable attributes as the API holds them. */
  function Editable(s: ServerState): EditServerParams
  {
    EditServerParams(s.cpu, s.description, s.bandwidth, s.hostname, s.memory, s.storage,
                     SchedulesOf(s.backupsSchedule))
  }

  /** The parameters Update sends: each changed attribute's new value, the
      zero value for every unchanged one. */
  function EditParamsFor(prior: ServerState, now: ServerState): EditServerParams
  {
    EditServerParams(
      if now.cpu != prior.cpu then now.cpu else 0,
      if now.description != prior.description then now.description else "",
      if now.bandwidth != prior.bandwidth then now.bandwidth else 0,
      if now.hostname != prior.hostname then now.hostname else "",
      if now.memory != prior.memory then now.memory else 0,
      if now.storage != prior.storage then now.storage else 0,
      if now.backupsSchedule != prior.backupsSchedule then SchedulesOf(now.backupsSchedule) else [])
  }

  /** How the API applies a partial edit: a zero field is left alone. */
  function ApplyEdit(current: EditServerParams, opts: EditServerParams): EditServerParams
  {
    EditServerParams(
      if opts.cpu != 0 then opts.cpu else current.cpu,
      if opts.description != "" then opts.description else current.description,
      if opts.bandwidth != 0 then opts.bandwidth else current.bandwidth,
      if opts.hostname != "" then opts.hostname else current.hostname,
      if opts.memory != 0 then opts.memory else current.memory,
      if opts.storage != 0 then opts.storage else current.storage,
      if opts.backup != [] then opts.backup else current.backup)
  }

  /** Update's HasChange chain as the source writes it. */
  method BuildEditServerParams(d: ResourceData<ServerState>) returns (opts: EditServerParams)
    ensures opts == EditParamsFor(d.prior, d.state)
  {
    opts := EditServerParams(0, "", 0, "", 0, 0, []);
    if d.state.cpu != d.prior.cpu {
      opts := opts.(cpu := d.state.cpu);
    }
    if d.state.description != d.prior.description {
      opts := opts.(description := d.state.description);
    }
    if d.state.bandwidth != d.prior.bandwidth {
      opts := opts.(bandwidth := d.state.bandwidth);
    }
    if d.state.hostname != d.prior.hostname {
      opts := opts.(hostname := d.state.hostname);
    }
    if d.state.memory != d.prior.memory {
      opts := opts.(memory := d.state.memory);
    }
    if d.state.storage != d.prior.storage {
      opts := opts.(storage := d.state.storage);
    }
    if d.state.backupsSchedule != d.prior.backupsSchedule {
      var backups, _ := ExpandBackupSchedules(d.state.backupsSchedule);
      assert backups == SchedulesOf(d.state.backupsSchedule);
      opts := opts.(backup := backups);
    }
  }

  /** Different schedule blocks expand to different schedules. */
  lemma SchedulesOfInjective(a: seq<ScheduleBlock>, b: seq<ScheduleBlock>)
    requires a != b
    ensures SchedulesOf(a) != SchedulesOf(b)
  {
    if |a| == |b| {
      var i :| 0 <= i < |a| && a[i] != b[i];
      assert SchedulesOf(a)[i] != SchedulesOf(b)[i];
    }
  }

  /** An edit built from the plan brings a server that matches the prior
      state to the planned attributes exactly when no changed attribute is
      planned at its zero value. */
  lemma EditReachesPlan(prior: ServerState, now: ServerState)
    ensures ApplyEdit(Editable(prior), EditParamsFor(prior, now)) == Editable(now)
      <==> && (now.cpu != prior.cpu ==> now.cpu != 0)
           && (now.description != prior.description ==> now.description != "")
           && (now.bandwidth != prior.bandwidth ==> now.bandwidth != 0)
           && (now.hostname != prior.hostname ==> now.hostname != "")
           && (now.memory != prior.memory ==> now.memory != 0)
           && (now.storage != prior.storage ==> now.storage != 0)
           && (now.backupsSchedule != prior.backupsSchedule ==> now.backupsSchedule != [])
  {
    if now.backupsSchedule != prior.backupsSchedule {
      SchedulesOfInjective(now.backupsSchedule, prior.backupsSchedule);
    }
  }

  /** The converse: an attribute changed to its zero value (an emptied
      description, say) is sent as "no change", so the API keeps the old
      value and the plan is not reached. */
  lemma EditCannotClear(prior: ServerState, now: ServerState)
    requires now.description == "" && prior.description != ""
    ensures ApplyEdit(Editable(prior), EditParamsFor(prior, now)).description == prior.description
    ensures EditParamsFor(prior, now) == EditParamsFor(prior, now.(description := prior.description))
  {
  }

  // ---------------------------------------------------------------------------
  // Create, Update, Delete
  // ---------------------------------------------------------------------------

  /** What a Read at the end of a handler leaves for server `id`. */
  predicate ReadDone(d: ResourceData<ServerState>, id: string, s: ServerState, api: ServerApi)
    reads d
  {
    if api.details.Ok? then d.id == id && d.state == ServerReadState(s, api.details.value, api.adapters)
    else d.id == "" && d.state == s
  }

  /** The calls setServerNetworkAdapter issues for server `id`. */
  function AdapterCalls(id: string, s: ServerState, api: ServerApi): seq<ServerCall>
  {
    [ListNetworkAdapters(id), EditNetworkAdapter(AdapterIdOf(PrimaryAdapter(api.adapters)), s.primaryNetworkadapterNetwork)]
  }

  /** resourceGlesysServerCreate: create, wait until running, wait until
      unlocked, move the primary adapter when a network is configured, then
      Read. Each failure stops the handler with its own message. */
  method ServerCreate(d: ResourceData<ServerState>, api: ServerApi) returns (diag: Outcome, calls: seq<ServerCall>)
    modifies d
    ensures var s := old(d.state);
      api.create.Err? ==>
        && diag == Fail("error creating server: " + api.create.error)
        && calls == [CreateServer(CreateParams(s))]
        && d.id == old(d.id) && d.state == s
    ensures api.create.Ok? && api.waitRunning.Failed? ==>
      var s, id := old(d.state), api.create.value;
        && diag == Fail("error while waiting for Server (" + id + ") to be started: " + api.waitRunning.message)
        && calls == [CreateServer(CreateParams(s)), Wait(id, RunningWait)]
        && d.id == id && d.state == s
    ensures api.create.Ok? && api.waitRunning.Succeeded? && api.waitUnlocked.Failed? ==>
      var s, id := old(d.state), api.create.value;
        && diag == Fail("error while waiting for Server (" + id + ") to be completed: " + api.waitUnlocked.message)
        && calls == [CreateServer(CreateParams(s)), Wait(id, RunningWait), Wait(id, UnlockedWait)]
        && d.id == id && d.state == s
    ensures api.create.Ok? && api.waitRunning.Succeeded? && api.waitUnlocked.Succeeded? ==>
      var s, id := old(d.state), api.create.value;
      var setAdapter := s.primaryNetworkadapterNetwork != "";
      var head := [CreateServer(CreateParams(s)), Wait(id, RunningWait), Wait(id, UnlockedWait)]
                  + (if setAdapter then AdapterCalls(id, s, api) else []);
        if setAdapter && api.editAdapter.Failed? then
          && diag == Fail("error while setting default adapter network: " + api.editAdapter.message)
          && calls == head
          && d.id == id && d.state == s
        else
          var readApi := if setAdapter then EditedApi(api, s.primaryNetworkadapterNetwork) else api;
          && diag == Pass
          && calls == head + ReadCalls(id, readApi)
          && ReadDone(d, id, s, readApi)
    ensures var s := old(d.state);
      && api.create.Ok? && api.waitRunning.Succeeded? && api.waitUnlocked.Succeeded?
      && s.primaryNetworkadapterNetwork != "" && api.editAdapter.Succeeded?
      && PrimaryAdapter(api.adapters).Some? && api.details.Ok?
      ==> d.state.primaryNetworkadapterNetwork == s.primaryNetworkadapterNetwork
  {
    var backups, _ := ExpandBackupSchedules(d.state.backupsSchedule);
    var users, _ := ExpandUsers(d.state.user);
    assert backups == SchedulesOf(d.state.backupsSchedule);
    assert users == UsersOf(d.state.user);
    var params := CreateParams(d.state).(backup := backups, users := users);
    calls := [CreateServer(params)];
    if api.create.Err? {
      return Fail("error creating server: " + api.create.error), calls;
    }
    d.SetId(api.create.value);
    calls := calls + [Wait(d.id, RunningWait)];
    if api.waitRunning.Failed? {
      return Fail("error while waiting for Server (" + d.id + ") to be started: " + api.waitRunning.message), calls;
    }
    calls := calls + [Wait(d.id, UnlockedWait)];
    if api.waitUnlocked.Failed? {
      return Fail("error while waiting for Server (" + d.id + ") to be completed: " + api.waitUnlocked.message), calls;
    }
    var readApi := api;
    if d.state.primaryNetworkadapterNetwork != "" {
      var status, adapterCalls := SetServerNetworkAdapter(d, api);
      calls := calls + adapterCalls;
      if status.Failed? {
        return Fail("error while setting default adapter network: " + status.message), calls;
      }
      readApi := EditedApi(api, d.state.primaryNetworkadapterNetwork);
    }
    ghost var s := d.state;
    var readCalls;
    diag, readCalls := ServerRead(d, readApi);
    calls := calls + readCalls;
    if s.primaryNetworkadapterNetwork != "" && PrimaryAdapter(api.adapters).Some? && api.details.Ok? {
      ReadAfterAdapterEdit(s, api.details.value, api, s.primaryNetworkadapterNetwork);
    }
  }

  /** resourceGlesysServerUpdate: send the edit (always, even when nothing
      editable changed), move the primary adapter when its network changed,
      then Read. */
  method ServerUpdate(d: ResourceData<ServerState>, api: ServerApi) returns (diag: Outcome, calls: seq<ServerCall>)
    modifies d
    ensures var s, id := old(d.state), old(d.id);
      api.edit.Failed? ==>
        && diag == Fail("Error updating instance: " + api.edit.message)
        && calls == [EditServer(id, EditParamsFor(d.prior, s))]
        && d.id == id && d.state == s
    ensures var s, id := old(d.state), old(d.id);
      var setAdapter := s.primaryNetworkadapterNetwork != d.prior.primaryNetworkadapterNetwork;
      var head := [EditServer(id, EditParamsFor(d.prior, s))] + (if setAdapter then AdapterCalls(id, s, api) else []);
      api.edit.Succeeded? ==>
        if setAdapter && api.editAdapter.Failed? then
          && diag == Fail("error while updating primary networkadapter network: " + api.editAdapter.message)
          && calls == head
          && d.id == id && d.state == s
        else
          var readApi := if setAdapter then EditedApi(api, s.primaryNetworkadapterNetwork) else api;
          && diag == Pass
          && calls == head + ReadCalls(id, readApi)
          && ReadDone(d, id, s, readApi)
    ensures var s := old(d.state);
      && api.edit.Succeeded?
      && s.primaryNetworkadapterNetwork != d.prior.primaryNetworkadapterNetwork && api.editAdapter.Succeeded?
      && PrimaryAdapter(api.adapters).Some? && api.details.Ok?
      ==> d.state.primaryNetworkadapterNetwork == s.primaryNetworkadapterNetwork
  {
    var opts := BuildEditServerParams(d);
    calls := [EditServer(d.id, opts)];
    if api.edit.Failed? {
      return Fail("Error updating instance: " + api.edit.message), calls;
    }
    var readApi := api;
    if d.state.primaryNetworkadapterNetwork != d.prior.primaryNetworkadapterNetwork {
      var status, adapterCalls := SetServerNetworkAdapter(d, api);
      calls := calls + adapterCalls;
      if status.Failed? {
        return Fail("error while updating primary networkadapter network: " + status.message), calls;
      }
      readApi := EditedApi(api, d.state.primaryNetworkadapterNetwork);
    }
    ghost var s := d.state;
    var readCalls;
    diag, readCalls := ServerRead(d, readApi);
    calls := calls + readCalls;
    if s.primaryNetworkadapterNetwork != d.prior.primaryNetworkadapterNetwork
       && PrimaryAdapter(api.adapters).Some? && api.details.Ok? {
      ReadAfterAdapterEdit(s, api.details.value, api, s.primaryNetworkadapterNetwork);
    }
  }

  /** resourceGlesysServerDelete: wait until unlocked, destroy without
      keeping the IP address, then Read (which clears the id once the
      server is gone). */
  method ServerDelete(d: ResourceData<ServerState>, api: ServerApi) returns (diag: Outcome, calls: seq<ServerCall>)
    modifies d
    ensures var s, id := old(d.state), old(d.id);
      api.waitUnlocked.Failed? ==>
        && diag == Fail("Error waiting for server to be unlocked for destroy (" + id + "): " + api.waitUnlocked.message)
        && calls == [Wait(id, UnlockedWait)]
        && d.id == id && d.state == s
    ensures var s, id := old(d.state), old(d.id);
      api.waitUnlocked.Succeeded? && api.destroy.Failed? ==>
        && diag == Fail("Error deleting instance (" + id + "): " + api.destroy.message)
        && calls == [Wait(id, UnlockedWait), DestroyServer(id, false)]
        && d.id == id && d.state == s
    ensures var s, id := old(d.state), old(d.id);
      api.waitUnlocked.Succeeded? && api.destroy.Succeeded? ==>
        && diag == Pass
        && calls == [Wait(id, UnlockedWait), DestroyServer(id, false)] + ReadCalls(id, api)
        && ReadDone(d, id, s, api)
  {
    calls := [Wait(d.id, UnlockedWait)];
    if api.waitUnlocked.Failed? {
      return Fail("Error waiting for server to be unlocked for destroy (" + d.id + "): " + api.waitUnlocked.message), calls;
    }
    calls := calls + [DestroyServer(d.id, false)];
    if api.destroy.Failed? {
      return Fail("Error deleting instance (" + d.id + "): " + api.destroy.message), calls;
    }
    var readCalls;
    diag, readCalls := ServerRead(d, api);
    calls := calls + readCalls;
  }
}
