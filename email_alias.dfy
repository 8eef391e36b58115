/** resource_glesys_emailalias.go: an e-mail alias. The resource id is the
    alias address, "local@domain". */
module EmailAlias {
  import opened Wrappers
  import opened ResourceState
  import Email

  /** The resource's attributes besides the id. */
  datatype AliasState = AliasState(emailalias: string, goto: string)

  /** The parameters of both the create and the edit call. */
  datatype EmailAliasParams = EmailAliasParams(emailAlias: string, goTo: string)

  /** The answers the API gives during one handler run. */
  datatype AliasApi = AliasApi(
    create: Result<string, string>,
    list: Result<Email.Listing, string>,
    edit: CallStatus,
    delete: CallStatus)

  datatype AliasCall =
    | CreateAlias(createParams: EmailAliasParams)
    | ListEmails(domain: string, filter: string)
    | EditAlias(editParams: EmailAliasParams)
    | DeleteEmail(address: string)

  /** What a Read of the alias `id` leaves and reports: a panic on an id
      without "@"; otherwise one listing of the domain filtered by the id,
      after which a listing error changes nothing, exactly one alias is
      copied and becomes the id, none clears the id, and several change
      nothing. */
  predicate ReadDone(d: ResourceData<AliasState>, id: string, s: AliasState, api: AliasApi,
                     diag: Outcome, calls: seq<AliasCall>)
    reads d
  {
    if '@' !in id then diag == Panic(Email.IndexOutOfRange) && calls == [] && d.id == id && d.state == s
    else
      && diag == Pass
      && calls == [ListEmails(Email.DomainOf(id).value, id)]
      && if api.list.Err? then d.id == id && d.state == s
         else
           var aliases := api.list.value.emailAliases;
           if |aliases| == 1 then
             d.id == aliases[0].emailAlias && d.state == AliasState(aliases[0].emailAlias, aliases[0].goTo)
           else if |aliases| == 0 then d.id == "" && d.state == s
           else d.id == id && d.state == s
  }

  /** resourceGlesysEmailAliasRead. */
  method AliasRead(d: ResourceData<AliasState>, api: AliasApi) returns (diag: Outcome, calls: seq<AliasCall>)
    modifies d
    ensures ReadDone(d, old(d.id), old(d.state), api, diag, calls)
  {
    var domain := Email.DomainOf(d.id);
    if domain.None? {
      return Panic(Email.IndexOutOfRange), [];
    }
    calls := [ListEmails(domain.value, d.id)];
    if api.list.Err? {
      return Pass, calls;
    }
    var aliases := api.list.value.emailAliases;
    if |aliases| == 1 {
      d.state := d.state.(emailalias := aliases[0].emailAlias);
      d.state := d.state.(goto := aliases[0].goTo);
      d.SetId(aliases[0].emailAlias);
    } else if |aliases| < 1 {
      d.SetId("");
    }
    diag := Pass;
  }

  /** resourceGlesysEmailAliasCreate: create the alias, take its address as
      the id, then Read. */
  method AliasCreate(d: ResourceData<AliasState>, api: AliasApi) returns (diag: Outcome, calls: seq<AliasCall>)
    modifies d
    ensures |calls| >= 1 && calls[0] == CreateAlias(EmailAliasParams(old(d.state).emailalias, old(d.state).goto))
    ensures api.create.Err? ==>
      && diag == Fail("Error creating alias: " + api.create.error)
      && calls == [calls[0]] && d.id == old(d.id) && d.state == old(d.state)
    ensures api.create.Ok? ==> ReadDone(d, api.create.value, old(d.state), api, diag, calls[1..])
  {
    calls := [CreateAlias(EmailAliasParams(d.state.emailalias, d.state.goto))];
    if api.create.Err? {
      return Fail("Error creating alias: " + api.create.error), calls;
    }
    d.SetId(api.create.value);
    var readCalls;
    diag, readCalls := AliasRead(d, api);
    calls := calls + readCalls;
  }

  /** The parameters Update sends: always the alias being edited, which is
      the id, and the destination only when it changed. */
  function EditParamsFor(id: string, prior: AliasState, now: AliasState): EmailAliasParams
  {
    EmailAliasParams(id, if now.goto != prior.goto then now.goto else "")
  }

  /** The destination the alias has once the API applied the edit: an
      empty destination is left alone. */
  function ApplyEdit(currentGoTo: string, params: EmailAliasParams): string
  {
    if params.goTo != "" then params.goTo else currentGoTo
  }

  /** The edit reaches the planned destination exactly when that is not a
      change to the empty destination, which leaves the prior one in place;
      renaming the alias is never sent: the id names it. */
  lemma EditReachesPlan(id: string, prior: AliasState, now: AliasState)
    ensures ApplyEdit(prior.goto, EditParamsFor(id, prior, now)) == now.goto
        <==> (now.goto != prior.goto ==> now.goto != "")
    ensures now.goto == "" ==> ApplyEdit(prior.goto, EditParamsFor(id, prior, now)) == prior.goto
    ensures EditParamsFor(id, prior, now).emailAlias == id
  {
  }

  /** resourceGlesysEmailAliasUpdate: send the edit (always), then Read. */
  method AliasUpdate(d: ResourceData<AliasState>, api: AliasApi) returns (diag: Outcome, calls: seq<AliasCall>)
    modifies d
    ensures |calls| >= 1 && calls[0] == EditAlias(EditParamsFor(old(d.id), d.prior, old(d.state)))
    ensures api.edit.Failed? ==>
      && diag == Fail("Error updating email alias (" + old(d.id) + "): " + api.edit.message)
      && calls == [calls[0]] && d.id == old(d.id) && d.state == old(d.state)
    ensures api.edit.Succeeded? ==> ReadDone(d, old(d.id), old(d.state), api, diag, calls[1..])
  {
    var params := EmailAliasParams(d.id, "");
    if d.state.goto != d.prior.goto {
      params := params.(goTo := d.state.goto);
    }
    calls := [EditAlias(params)];
    if api.edit.Failed? {
      return Fail("Error updating email alias (" + d.id + "): " + api.edit.message), calls;
    }
    var readCalls;
    diag, readCalls := AliasRead(d, api);
    calls := calls + readCalls;
  }

  /** resourceGlesysEmailAliasDelete: the id is cleared only once the alias
      is deleted. */
  method AliasDelete(d: ResourceData<AliasState>, api: AliasApi) returns (diag: Outcome, calls: seq<AliasCall>)
    modifies d
    ensures calls == [DeleteEmail(old(d.id))]
    ensures api.delete.Failed? ==> diag == Fail("Error deleting email alias: " + api.delete.message) && d.id == old(d.id)
    ensures api.delete.Succeeded? ==> diag == Pass && d.id == ""
    ensures d.state == old(d.state)
  {
    calls := [DeleteEmail(d.id)];
    if api.delete.Failed? {
      return Fail("Error deleting email alias: " + api.delete.message), calls;
    }
    d.SetId("");
    diag := Pass;
  }
}
