/** resource_glesys_loadbalancer_target.go: a target of a load balancer's
    backend. The resource id is the target's name. */
module LoadBalancerTarget {
  import opened Wrappers
  import opened GoStrings
  import opened Lists
  import opened ResourceState

  /** The resource's attributes besides the id. */
  datatype TargetState = TargetState(
    backend: string, enabled: bool, loadbalancerid: string, name: string, port: int,
    status: string, targetip: string, weight: int)

  /** A target as the API lists it within a backend. */
  datatype Target = Target(name: string, enabled: bool, port: int, status: string, targetIp: string, weight: int)

  datatype Backend = Backend(name: string, targets: seq<Target>)

  /** The part of a load balancer's details Read uses. */
  datatype LoadBalancerDetails = LoadBalancerDetails(backendsList: seq<Backend>)

  datatype AddTargetParams = AddTargetParams(backend: string, name: string, port: int, targetIp: string, weight: int)

  datatype ToggleTargetParams = ToggleTargetParams(name: string, backend: string)

  /** A partial edit: the API leaves a field at its zero value alone. */
  datatype EditTargetParams = EditTargetParams(backend: string, name: string, port: int, targetIp: string, weight: int)

  datatype RemoveTargetParams = RemoveTargetParams(backend: string, name: string)

  /** The answers the API gives during one handler run. */
  datatype TargetApi = TargetApi(
    add: CallStatus,
    disable: CallStatus,
    enable: CallStatus,
    details: Result<LoadBalancerDetails, string>,
    edit: CallStatus,
    remove: CallStatus)

  datatype TargetCall =
    | AddTarget(loadBalancerId: string, addParams: AddTargetParams)
    | DisableTarget(loadBalancerId: string, toggleParams: ToggleTargetParams)
    | EnableTarget(loadBalancerId: string, toggleParams: ToggleTargetParams)
    | GetDetails(loadBalancerId: string)
    | EditTarget(loadBalancerId: string, editParams: EditTargetParams)
    | RemoveTarget(loadBalancerId: string, removeParams: RemoveTargetParams)

  // ---------------------------------------------------------------------------
  // Read
  // ---------------------------------------------------------------------------

  /** How many leading backends carry the configured backend's name: Read
      walks exactly these before it stops at the first other one. */
  function MatchingPrefix(backends: seq<Backend>, backend: string): (k: nat)
    ensures k <= |backends|
    ensures forall i :: 0 <= i < k ==> backends[i].name == backend
    ensures k < |backends| ==> backends[k].name != backend
  {
    if backends == [] || backends[0].name != backend then 0
    else 1 + MatchingPrefix(backends[1..], backend)
  }

  /** The targets of the backends, one backend after the other. */
  function TargetsOf(backends: seq<Backend>): seq<Target>
    decreases |backends|
  {
    if backends == [] then [] else TargetsOf(backends[..|backends| - 1]) + backends[|backends| - 1].targets
  }

  function HasName(name: string): Target -> bool
  {
    (t: Target) => t.name == name
  }

  /** The attributes after Read's inner loop has copied `found`, if anything. */
  function CopyTarget(s: TargetState, found: Option<Target>): TargetState
  {
    if found.None? then s
    else
      var t := found.value;
      s.(enabled := t.enabled, port := t.port, status := t.status, targetip := t.targetIp, weight := t.weight)
  }

  /** What a Read of the target `id` leaves: a failed details fetch clears
      the id; otherwise the last target with the configured name among the
      backends Read walked is copied, and the id survives only when every
      backend carries the configured backend's name. */
  predicate ReadDone(d: ResourceData<TargetState>, id: string, s: TargetState, api: TargetApi)
    reads d
  {
    if api.details.Err? then d.id == "" && d.state == s
    else
      var backends := api.details.value.backendsList;
      var k := MatchingPrefix(backends, s.backend);
      && d.state == CopyTarget(s, LastWhere(TargetsOf(backends[..k]), HasName(s.name)))
      && d.id == (if k < |backends| then "" else id)
  }

  /** Read's inner loop over one backend's targets: each target with the
      configured name overwrites the copied attributes. */
  method CopyMatchingTargets(d: ResourceData<TargetState>, targets: seq<Target>)
    modifies d
    ensures d.id == old(d.id)
    ensures d.state == CopyTarget(old(d.state), LastWhere(targets, HasName(old(d.state).name)))
  {
    ghost var s0 := d.state;
    var j := 0;
    while j < |targets|
      invariant 0 <= j <= |targets|
      invariant d.id == old(d.id)
      invariant d.state == CopyTarget(s0, LastWhere(targets[..j], HasName(s0.name)))
    {
      var t := targets[j];
      assert targets[..j + 1] == targets[..j] + [t];
      LastWhereSnoc(targets[..j], t, HasName(s0.name));
      if t.name == d.state.name {
        d.state := d.state.(enabled := t.enabled);
        d.state := d.state.(port := t.port);
        d.state := d.state.(status := t.status);
        d.state := d.state.(targetip := t.targetIp);
        d.state := d.state.(weight := t.weight);
      }
      j := j + 1;
    }
    assert targets[..j] == targets;
  }

  /** Copying a backend's match after the matches so far is copying the
      last match of all of them. */
  lemma CopyTargetConcat(s: TargetState, before: seq<Target>, targets: seq<Target>)
    ensures CopyTarget(CopyTarget(s, LastWhere(before, HasName(s.name))), LastWhere(targets, HasName(s.name)))
            == CopyTarget(s, LastWhere(before + targets, HasName(s.name)))
  {
    LastWhereConcat(before, targets, HasName(s.name));
  }

  /** resourceGlesysLoadBalancerTargetRead. */
  method TargetRead(d: ResourceData<TargetState>, api: TargetApi) returns (diag: Outcome, calls: seq<TargetCall>)
    modifies d
    ensures diag == Pass
    ensures calls == [GetDetails(old(d.state).loadbalancerid)]
    ensures ReadDone(d, old(d.id), old(d.state), api)
  {
    calls := [GetDetails(d.state.loadbalancerid)];
    if api.details.Err? {
      d.SetId("");
      return Pass, calls;
    }
    var backends := api.details.value.backendsList;
    ghost var s0 := d.state;
    var i := 0;
    while i < |backends|
      invariant 0 <= i <= MatchingPrefix(backends, s0.backend)
      invariant d.id == old(d.id)
      invariant d.state == CopyTarget(s0, LastWhere(TargetsOf(backends[..i]), HasName(s0.name)))
    {
      var n := backends[i];
      if n.name == d.state.backend {
        assert backends[..i + 1][..i] == backends[..i];
        CopyTargetConcat(s0, TargetsOf(backends[..i]), n.targets);
        CopyMatchingTargets(d, n.targets);
      } else {
        d.SetId("");
        return Pass, calls;
      }
      i := i + 1;
    }
    diag := Pass;
  }

  /** Read copies the last target with the configured name among the
      backends it walked, and leaves the attributes alone when there is none. */
  lemma ReadCopiesTarget(s: TargetState, targets: seq<Target>)
    ensures forall i :: 0 <= i < |targets| && targets[i].name == s.name
                        && (forall j :: i < j < |targets| ==> targets[j].name != s.name) ==>
      CopyTarget(s, LastWhere(targets, HasName(s.name)))
        == s.(enabled := targets[i].enabled, port := targets[i].port, status := targets[i].status,
              targetip := targets[i].targetIp, weight := targets[i].weight)
    ensures (forall i :: 0 <= i < |targets| ==> targets[i].name != s.name) ==>
      CopyTarget(s, LastWhere(targets, HasName(s.name))) == s
  {
    forall i | 0 <= i < |targets| && targets[i].name == s.name
               && (forall j :: i < j < |targets| ==> targets[j].name != s.name)
      ensures LastWhere(targets, HasName(s.name)) == Some(targets[i])
    {
      LastWhereAt(targets, HasName(s.name), i);
    }
  }

  /** The id survives Read exactly when every backend of the load balancer
      carries the configured backend's name. */
  lemma ReadKeepsIdIffAllBackendsMatch(backends: seq<Backend>, backend: string)
    ensures MatchingPrefix(backends, backend) == |backends|
            <==> forall i :: 0 <= i < |backends| ==> backends[i].name == backend
  {
  }

  // ---------------------------------------------------------------------------
  // Create, Update, Delete
  // ---------------------------------------------------------------------------

  function AddParams(s: TargetState): AddTargetParams
  {
    AddTargetParams(s.backend, s.name, s.port, s.targetip, s.weight)
  }

  function Toggle(s: TargetState): ToggleTargetParams
  {
    ToggleTargetParams(s.name, s.backend)
  }

  /** resourceGlesysLoadBalancerTargetCreate: add the target, disable it
      right away iff `enabled` is false (also when it was left unset), take
      the name as the id, then Read. */
  method TargetCreate(d: ResourceData<TargetState>, api: TargetApi) returns (diag: Outcome, calls: seq<TargetCall>)
    modifies d
    ensures var s := old(d.state);
      api.add.Failed? ==>
        && diag == Fail("Error creating LoadBalancer Target: " + api.add.message)
        && calls == [AddTarget(s.loadbalancerid, AddParams(s))]
        && d.id == old(d.id) && d.state == s
    ensures var s := old(d.state);
      var head := [AddTarget(s.loadbalancerid, AddParams(s))]
                  + (if !s.enabled then [DisableTarget(s.loadbalancerid, Toggle(s))] else []);
      api.add.Succeeded? ==>
        if !s.enabled && api.disable.Failed? then
          && diag == Fail("Could not disable Target during creation: " + api.disable.message + "\n")
          && calls == head && d.id == old(d.id) && d.state == s
        else
          && diag == Pass
          && calls == head + [GetDetails(s.loadbalancerid)]
          && ReadDone(d, s.name, s, api)
  {
    var params := AddParams(d.state);
    var loadbalancerId := d.state.loadbalancerid;
    calls := [AddTarget(loadbalancerId, params)];
    if api.add.Failed? {
      return Fail("Error creating LoadBalancer Target: " + api.add.message), calls;
    }
    if !d.state.enabled {
      calls := calls + [DisableTarget(loadbalancerId, ToggleTargetParams(d.state.name, d.state.backend))];
      if api.disable.Failed? {
        return Fail("Could not disable Target during creation: " + api.disable.message + "\n"), calls;
      }
    }
    d.SetId(d.state.name);
    var readCalls;
    diag, readCalls := TargetRead(d, api);
    calls := calls + readCalls;
  }

  /** The toggle Update issues when `enabled` changed: a disable when the
      old value was true, an enable otherwise. */
  function ToggleCall(prior: TargetState, now: TargetState): TargetCall
  {
    if prior.enabled then DisableTarget(now.loadbalancerid, Toggle(now))
    else EnableTarget(now.loadbalancerid, Toggle(now))
  }

  /** Deciding from the old value moves the target to the planned value:
      a changed `enabled` that is now false disables, now true enables. */
  lemma ToggleReachesPlan(prior: TargetState, now: TargetState)
    requires now.enabled != prior.enabled
    ensures ToggleCall(prior, now).DisableTarget? <==> !now.enabled
    ensures ToggleCall(prior, now).EnableTarget? <==> now.enabled
  {
  }

  /** The parameters of the edit: always the backend and the name, and
      port, target address and weight only when they changed. */
  function EditParamsFor(prior: TargetState, now: TargetState): EditTargetParams
  {
    EditTargetParams(
      now.backend, now.name,
      if now.port != prior.port then now.port else 0,
      if now.targetip != prior.targetip then now.targetip else "",
      if now.weight != prior.weight then now.weight else 0)
  }

  /** The editable attributes as the API holds them. */
  function Editable(s: TargetState): EditTargetParams
  {
    EditTargetParams(s.backend, s.name, s.port, s.targetip, s.weight)
  }

  /** How the API applies a partial edit: the target is named by backend and
      name, and a zero field is left alone. */
  function ApplyEdit(current: EditTargetParams, params: EditTargetParams): EditTargetParams
  {
    current.(port := if params.port != 0 then params.port else current.port,
             targetIp := if params.targetIp != "" then params.targetIp else current.targetIp,
             weight := if params.weight != 0 then params.weight else current.weight)
  }

  /** The edit reaches the planned port, address and weight exactly when no
      changed one is planned at its zero value. */
  lemma EditReachesPlan(prior: TargetState, now: TargetState)
    requires now.backend == prior.backend && now.name == prior.name
    ensures (now.port != prior.port ==> now.port != 0)
            && (now.targetip != prior.targetip ==> now.targetip != "")
            && (now.weight != prior.weight ==> now.weight != 0)
      <==> ApplyEdit(Editable(prior), EditParamsFor(prior, now)) == Editable(now)
  {
  }

  /** Update's params as the source fills them in. */
  method BuildEditTargetParams(d: ResourceData<TargetState>) returns (params: EditTargetParams)
    ensures params == EditParamsFor(d.prior, d.state)
  {
    params := EditTargetParams(d.state.backend, d.state.name, 0, "", 0);
    if d.state.name != d.prior.name {
      params := params.(name := d.state.name);
    }
    if d.state.port != d.prior.port {
      params := params.(port := d.state.port);
    }
    if d.state.targetip != d.prior.targetip {
      params := params.(targetIp := d.state.targetip);
    }
    if d.state.weight != d.prior.weight {
      params := params.(weight := d.state.weight);
    }
  }

  /** The error text of a failed toggle. The source formats the old value,
      a bool, with the `%s` verb, which Go renders as "%!s(bool=...)". */
  function ToggleError(was: bool, message: string): string
  {
    "Error toggling LoadBalancer Target from: %!s(bool=" + FormatBool(was) + ") - " + message + "\n"
  }

  /** resourceGlesysLoadBalancerTargetUpdate: toggle when `enabled`
      changed, then edit, then Read. */
  method TargetUpdate(d: ResourceData<TargetState>, api: TargetApi) returns (diag: Outcome, calls: seq<TargetCall>)
    modifies d
    ensures var s := old(d.state);
      var toggled := s.enabled != d.prior.enabled;
      var toggleFailed := if d.prior.enabled then api.disable.Failed? else api.enable.Failed?;
      var toggle := if toggled then [ToggleCall(d.prior, s)] else [];
      var edit := toggle + [EditTarget(s.loadbalancerid, EditParamsFor(d.prior, s))];
      if toggled && toggleFailed then
        && diag == Fail(ToggleError(d.prior.enabled, if d.prior.enabled then api.disable.message else api.enable.message))
        && calls == toggle && d.id == old(d.id) && d.state == s
      else if api.edit.Failed? then
        && diag == Fail("Error updating LoadBalancer Target: " + api.edit.message)
        && calls == edit && d.id == old(d.id) && d.state == s
      else
        && diag == Pass
        && calls == edit + [GetDetails(s.loadbalancerid)]
        && ReadDone(d, old(d.id), s, api)
  {
    var loadbalancerId := d.state.loadbalancerid;
    var params := BuildEditTargetParams(d);
    calls := [];
    if d.state.enabled != d.prior.enabled {
      var currentState := d.prior.enabled;
      var toggleParams := ToggleTargetParams(d.state.name, d.state.backend);
      if currentState {
        calls := calls + [DisableTarget(loadbalancerId, toggleParams)];
        if api.disable.Failed? {
          return Fail(ToggleError(currentState, api.disable.message)), calls;
        }
      } else {
        calls := calls + [EnableTarget(loadbalancerId, toggleParams)];
        if api.enable.Failed? {
          return Fail(ToggleError(currentState, api.enable.message)), calls;
        }
      }
    }
    calls := calls + [EditTarget(loadbalancerId, params)];
    if api.edit.Failed? {
      return Fail("Error updating LoadBalancer Target: " + api.edit.message), calls;
    }
    var readCalls;
    diag, readCalls := TargetRead(d, api);
    calls := calls + readCalls;
  }

  /** resourceGlesysLoadBalancerTargetDelete: the id is cleared only once
      the target is removed. */
  method TargetDelete(d: ResourceData<TargetState>, api: TargetApi) returns (diag: Outcome, calls: seq<TargetCall>)
    modifies d
    ensures calls == [RemoveTarget(old(d.state).loadbalancerid, RemoveTargetParams(old(d.state).backend, old(d.state).name))]
    ensures api.remove.Failed? ==>
      diag == Fail("Error deleting LoadBalancer Target: " + api.remove.message) && d.id == old(d.id)
    ensures api.remove.Succeeded? ==> diag == Pass && d.id == ""
    ensures d.state == old(d.state)
  {
    calls := [RemoveTarget(d.state.loadbalancerid, RemoveTargetParams(d.state.backend, d.state.name))];
    if api.remove.Failed? {
      return Fail("Error deleting LoadBalancer Target: " + api.remove.message), calls;
    }
    d.SetId("");
    diag := Pass;
  }
}
