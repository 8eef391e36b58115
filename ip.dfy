/** resource_glesys_ip.go: a reserved IP address. The resource id is the
    address. */
module Ip {
  import opened Wrappers
  import opened ResourceState

  /** The price of an address, as the API reports it and as the one element
      of the `cost` list attribute holds it. The amount is a floating-point
      number that the provider only copies; no arithmetic is done on it. */
  datatype Cost = Cost(amount: real, currency: string, timePeriod: string)

  /** The resource's attributes besides the id. */
  datatype IpState = IpState(
    address: string,
    broadcast: string,
    gateway: string,
    cost: seq<Cost>,
    datacenter: string,
    lockedToAccount: string,
    nameServers: seq<string>,
    netmask: string,
    platforms: seq<string>,
    platform: string,
    ptr: string,
    reserved: string,
    serverId: string,
    version: int)

  /** An address's details as the API reports them. */
  datatype IpDetails = IpDetails(
    address: string, broadcast: string, dataCenter: string, gateway: string, lockedToAccount: string,
    nameServers: seq<string>, netmask: string, platform: string, platforms: seq<string>,
    reserved: string, serverId: string, ptr: string, cost: Cost)

  datatype AvailableIp = AvailableIp(address: string)

  datatype AvailableIpsParams = AvailableIpsParams(dataCenter: string, platform: string, version: int)

  /** The answers the API gives during one handler run. `reserve` carries
      the reserved address. */
  datatype IpApi = IpApi(
    available: Result<seq<AvailableIp>, string>,
    reserve: Result<string, string>,
    setPtr: CallStatus,
    details: Result<IpDetails, string>,
    release: CallStatus)

  datatype IpCall =
    | Available(availableParams: AvailableIpsParams)
    | Reserve(address: string)
    | SetPtr(address: string, ptr: string)
    | GetDetails(address: string)
    | Release(address: string)

  /** The run-time error Go raises for `(*ips)[0]` on an empty list. */
  const IndexOutOfRange: string := "runtime error: index out of range [0] with length 0"

  // ---------------------------------------------------------------------------
  // Read
  // ---------------------------------------------------------------------------

  /** The attributes a successful Read leaves; `version` is not read back. */
  function ReadState(s: IpState, ip: IpDetails): IpState
  {
    s.(address := ip.address, broadcast := ip.broadcast, datacenter := ip.dataCenter,
       gateway := ip.gateway, lockedToAccount := ip.lockedToAccount, nameServers := ip.nameServers,
       netmask := ip.netmask, platform := ip.platform, platforms := ip.platforms,
       reserved := ip.reserved, serverId := ip.serverId, ptr := ip.ptr,
       cost := [Cost(ip.cost.amount, ip.cost.currency, ip.cost.timePeriod)])
  }

  /** Read wraps the price in a list of exactly one element carrying the
      amount, currency and period, and keeps the configured version. */
  lemma ReadCost(s: IpState, ip: IpDetails)
    ensures |ReadState(s, ip).cost| == 1
    ensures ReadState(s, ip).cost[0].amount == ip.cost.amount
    ensures ReadState(s, ip).cost[0].currency == ip.cost.currency
    ensures ReadState(s, ip).cost[0].timePeriod == ip.cost.timePeriod
    ensures ReadState(s, ip).version == s.version
  {
  }

  /** Reading the same details again changes nothing. */
  lemma ReadIdempotent(s: IpState, ip: IpDetails)
    ensures ReadState(ReadState(s, ip), ip) == ReadState(s, ip)
  {
  }

  /** What a Read of the address `id` leaves. */
  predicate ReadDone(d: ResourceData<IpState>, id: string, s: IpState, api: IpApi)
    reads d
  {
    if api.details.Ok? then d.id == id && d.state == ReadState(s, api.details.value)
    else d.id == "" && d.state == s
  }

  /** resourceGlesysIPRead: a failed details fetch clears the id without an
      error. */
  method IpRead(d: ResourceData<IpState>, api: IpApi) returns (diag: Outcome, calls: seq<IpCall>)
    modifies d
    ensures diag == Pass
    ensures calls == [GetDetails(old(d.id))]
    ensures ReadDone(d, old(d.id), old(d.state), api)
  {
    calls := [GetDetails(d.id)];
    if api.details.Err? {
      d.SetId("");
      return Pass, calls;
    }
    var ip := api.details.value;
    d.state := d.state.(address := ip.address);
    d.state := d.state.(broadcast := ip.broadcast);
    d.state := d.state.(datacenter := ip.dataCenter);
    d.state := d.state.(gateway := ip.gateway);
    d.state := d.state.(lockedToAccount := ip.lockedToAccount);
    d.state := d.state.(nameServers := ip.nameServers);
    d.state := d.state.(netmask := ip.netmask);
    d.state := d.state.(platform := ip.platform);
    d.state := d.state.(platforms := ip.platforms);
    d.state := d.state.(reserved := ip.reserved);
    d.state := d.state.(serverId := ip.serverId);
    d.state := d.state.(ptr := ip.ptr);
    var cost := Cost(ip.cost.amount, ip.cost.currency, ip.cost.timePeriod);
    d.state := d.state.(cost := [cost]);
    diag := Pass;
  }

  // ---------------------------------------------------------------------------
  // Create, Update, Delete
  // ---------------------------------------------------------------------------

  function AvailableParams(s: IpState): AvailableIpsParams
  {
    AvailableIpsParams(s.datacenter, s.platform, s.version)
  }

  /** The address Create reserves: the configured one, or else the first
      the API offers; None where the source panics on an empty offer. */
  function AddressToReserve(s: IpState, api: IpApi): (r: Option<string>)
    requires s.address == "" ==> api.available.Ok?
    ensures s.address != "" ==> r == Some(s.address)
    ensures s.address == "" && |api.available.value| > 0 ==> r == Some(api.available.value[0].address)
    ensures s.address == "" && |api.available.value| == 0 ==> r == None
  {
    if s.address != "" then Some(s.address)
    else if |api.available.value| == 0 then None
    else Some(api.available.value[0].address)
  }

  /** resourceGlesysIPCreate: pick the address (asking the API only when
      none is configured), reserve it, set its reverse pointer iff `ptr` is
      set, take the reserved address as the id, then Read. The API's errors
      are returned as they are. */
  method IpCreate(d: ResourceData<IpState>, api: IpApi) returns (diag: Outcome, calls: seq<IpCall>)
    modifies d
    ensures var s := old(d.state);
      s.address == "" && api.available.Err? ==>
        && diag == Fail(api.available.error) && calls == [Available(AvailableParams(s))]
        && d.id == old(d.id) && d.state == s
    ensures var s := old(d.state);
      s.address == "" && api.available.Ok? && AddressToReserve(s, api).None? ==>
        && diag == Panic(IndexOutOfRange) && calls == [Available(AvailableParams(s))]
        && d.id == old(d.id) && d.state == s
    ensures var s := old(d.state);
      (s.address != "" || api.available.Ok?) && AddressToReserve(s, api).Some? ==>
        var address := AddressToReserve(s, api).value;
        var head := (if s.address == "" then [Available(AvailableParams(s))] else []) + [Reserve(address)];
        var withPtr := head + (if s.ptr != "" then [SetPtr(address, s.ptr)] else []);
        if api.reserve.Err? then
          diag == Fail(api.reserve.error) && calls == head && d.id == old(d.id) && d.state == s
        else if s.ptr != "" && api.setPtr.Failed? then
          diag == Fail(api.setPtr.message) && calls == withPtr && d.id == old(d.id) && d.state == s
        else
          && diag == Pass
          && calls == withPtr + [GetDetails(api.reserve.value)]
          && ReadDone(d, api.reserve.value, s, api)
  {
    var address := d.state.address;
    calls := [];
    if address == "" {
      var params := AvailableIpsParams(d.state.datacenter, d.state.platform, d.state.version);
      calls := calls + [Available(params)];
      if api.available.Err? {
        return Fail(api.available.error), calls;
      }
      var ips := api.available.value;
      if |ips| == 0 {
        return Panic(IndexOutOfRange), calls;
      }
      address := ips[0].address;
    }
    calls := calls + [Reserve(address)];
    if api.reserve.Err? {
      return Fail(api.reserve.error), calls;
    }
    var ptr := d.state.ptr;
    if ptr != "" {
      calls := calls + [SetPtr(address, ptr)];
      if api.setPtr.Failed? {
        return Fail(api.setPtr.message), calls;
      }
    }
    d.SetId(api.reserve.value);
    var readCalls;
    diag, readCalls := IpRead(d, api);
    calls := calls + readCalls;
  }

  /** resourceGlesysIPUpdate: set the reverse pointer iff `ptr` changed,
      and nothing else; there is no Read afterwards. */
  method IpUpdate(d: ResourceData<IpState>, api: IpApi) returns (diag: Outcome, calls: seq<IpCall>)
    ensures d.state.ptr == d.prior.ptr ==> diag == Pass && calls == []
    ensures d.state.ptr != d.prior.ptr ==> calls == [SetPtr(d.id, d.state.ptr)]
    ensures d.state.ptr != d.prior.ptr && api.setPtr.Failed? ==>
      diag == Fail("Error updating reverse pointer on IP: " + api.setPtr.message)
    ensures d.state.ptr != d.prior.ptr && api.setPtr.Succeeded? ==> diag == Pass
  {
    calls := [];
    if d.state.ptr != d.prior.ptr {
      calls := [SetPtr(d.id, d.state.ptr)];
      if api.setPtr.Failed? {
        return Fail("Error updating reverse pointer on IP: " + api.setPtr.message), calls;
      }
    }
    diag := Pass;
  }

  /** resourceGlesysIPDelete: the id is cleared only once the address is
      released. */
  method IpDelete(d: ResourceData<IpState>, api: IpApi) returns (diag: Outcome, calls: seq<IpCall>)
    modifies d
    ensures calls == [Release(old(d.id))]
    ensures api.release.Failed? ==> diag == Fail(api.release.message) && d.id == old(d.id)
    ensures api.release.Succeeded? ==> diag == Pass && d.id == ""
    ensures d.state == old(d.state)
  {
    calls := [Release(d.id)];
    if api.release.Failed? {
      return Fail(api.release.message), calls;
    }
    d.SetId("");
    diag := Pass;
  }
}
