/** resource_glesys_email.go: an e-mail account. The resource id is the
    account's address, "local@domain". */
module Email {
  import opened Wrappers
  import opened GoStrings
  import opened ResourceState

  /** The resource's attributes besides the id. */
  datatype AccountState = AccountState(
    emailaccount: string,
    password: string,
    antispamlevel: int,
    antivirus: string,
    autorespond: string,
    autorespondmessage: string,
    autorespondsaveemail: string,
    rejectspam: string,
    quotaingib: int,
    created: string,
    displayname: string,
    modified: string)

  /** An account as the API lists it. */
  datatype EmailAccount = EmailAccount(
    emailAccount: string,
    antiSpamLevel: int,
    antiVirus: string,
    autoRespond: string,
    autoRespondMessage: string,
    autoRespondSaveEmail: string,
    created: string,
    displayName: string,
    modified: string,
    quotaInGib: int,
    rejectSpam: string)

  /** An alias as the API lists it. */
  datatype AliasEntry = AliasEntry(emailAlias: string, goTo: string)

  /** The answer to a listing of a mail domain: its accounts and aliases
      that match the filter. */
  datatype Listing = Listing(emailAccounts: seq<EmailAccount>, emailAliases: seq<AliasEntry>)

  datatype CreateAccountParams = CreateAccountParams(
    emailAccount: string, antiVirus: string, antiSpamLevel: int, autoRespond: string,
    autoRespondMessage: string, quotaInGib: int, rejectSpam: string)

  /** A partial edit: the API leaves a field at its zero value alone. */
  datatype EditAccountParams = EditAccountParams(
    antiSpamLevel: int, antiVirus: string, autoRespond: string, autoRespondMessage: string,
    quotaInGib: int, rejectSpam: string)

  /** The answers the API gives during one handler run. */
  datatype AccountApi = AccountApi(
    create: Result<string, string>,
    list: Result<Listing, string>,
    edit: CallStatus,
    delete: CallStatus)

  datatype AccountCall =
    | CreateAccount(createParams: CreateAccountParams)
    | ListEmails(domain: string, filter: string)
    | EditAccount(account: string, editParams: EditAccountParams)
    | DeleteEmail(address: string)

  // ---------------------------------------------------------------------------
  // The domain of an address
  // ---------------------------------------------------------------------------

  /** Read's `strings.Split(id, "@")[1]`: the piece after the first "@" up
      to the next one; None where the index panics, for an id without "@". */
  function DomainOf(id: string): (r: Option<string>)
    ensures r.None? <==> '@' !in id
    ensures r.Some? ==> '@' !in r.value
  {
    var components := Split(id, '@');
    if |components| < 2 then None else Some(components[1])
  }

  /** The domain of "local@domain" is `domain`. */
  lemma DomainOfAddress(local: string, domain: string)
    requires '@' !in local && '@' !in domain
    ensures DomainOf(local + ['@'] + domain) == Some(domain)
  {
    SplitPair(local, domain, '@');
  }

  /** With more than one "@" the domain is the piece between the first two. */
  lemma DomainOfSecondPiece(local: string, domain: string, rest: string)
    requires '@' !in local && '@' !in domain
    ensures DomainOf(local + ['@'] + domain + ['@'] + rest) == Some(domain)
  {
    var tail := domain + ['@'] + rest;
    var id := local + ['@'] + tail;
    assert local + ['@'] + domain + ['@'] + rest == id;
    SplitFirst(local, tail, '@');
    SplitFirst(domain, rest, '@');
    assert Split(id, '@')[1] == domain;
  }

  /** The run-time error Go raises for `components[1]` on a one-piece split. */
  const IndexOutOfRange: string := "runtime error: index out of range [1] with length 1"

  // ---------------------------------------------------------------------------
  // Read
  // ---------------------------------------------------------------------------

  function CopyAccount(s: AccountState, a: EmailAccount): AccountState
  {
    s.(antispamlevel := a.antiSpamLevel, antivirus := a.antiVirus, autorespond := a.autoRespond,
       autorespondmessage := a.autoRespondMessage, autorespondsaveemail := a.autoRespondSaveEmail,
       created := a.created, displayname := a.displayName, emailaccount := a.emailAccount,
       modified := a.modified, quotaingib := a.quotaInGib, rejectspam := a.rejectSpam)
  }

  /** What a Read of the account `id` leaves and reports: a panic on an id
      without "@"; otherwise one listing of the domain filtered by the id,
      after which a listing error changes nothing, exactly one account is
      copied and becomes the id, none clears the id, and several change
      nothing. */
  predicate ReadDone(d: ResourceData<AccountState>, id: string, s: AccountState, api: AccountApi,
                     diag: Outcome, calls: seq<AccountCall>)
    reads d
  {
    if '@' !in id then diag == Panic(IndexOutOfRange) && calls == [] && d.id == id && d.state == s
    else
      && diag == Pass
      && calls == [ListEmails(DomainOf(id).value, id)]
      && if api.list.Err? then d.id == id && d.state == s
         else
           var accounts := api.list.value.emailAccounts;
           if |accounts| == 1 then d.id == accounts[0].emailAccount && d.state == CopyAccount(s, accounts[0])
           else if |accounts| == 0 then d.id == "" && d.state == s
           else d.id == id && d.state == s
  }

  /** resourceGlesysEmailAccountRead. */
  method AccountRead(d: ResourceData<AccountState>, api: AccountApi) returns (diag: Outcome, calls: seq<AccountCall>)
    modifies d
    ensures ReadDone(d, old(d.id), old(d.state), api, diag, calls)
  {
    var domain := DomainOf(d.id);
    if domain.None? {
      return Panic(IndexOutOfRange), [];
    }
    calls := [ListEmails(domain.value, d.id)];
    if api.list.Err? {
      return Pass, calls;
    }
    var accounts := api.list.value.emailAccounts;
    if |accounts| == 1 {
      d.state := d.state.(antispamlevel := accounts[0].antiSpamLevel);
      d.state := d.state.(antivirus := accounts[0].antiVirus);
      d.state := d.state.(autorespond := accounts[0].autoRespond);
      d.state := d.state.(autorespondmessage := accounts[0].autoRespondMessage);
      d.state := d.state.(autorespondsaveemail := accounts[0].autoRespondSaveEmail);
      d.state := d.state.(created := accounts[0].created);
      d.state := d.state.(displayname := accounts[0].displayName);
      d.state := d.state.(emailaccount := accounts[0].emailAccount);
      d.state := d.state.(modified := accounts[0].modified);
      d.state := d.state.(quotaingib := accounts[0].quotaInGib);
      d.state := d.state.(rejectspam := accounts[0].rejectSpam);
      d.SetId(accounts[0].emailAccount);
    } else if |accounts| < 1 {
      d.SetId("");
    }
    diag := Pass;
  }

  /** A Read that found its account, repeated on the same answer, changes
      nothing more. */
  lemma ReadStable(s: AccountState, a: EmailAccount)
    ensures CopyAccount(CopyAccount(s, a), a) == CopyAccount(s, a)
    ensures CopyAccount(s, a).emailaccount == a.emailAccount
  {
  }

  // ---------------------------------------------------------------------------
  // Create, Update, Delete
  // ---------------------------------------------------------------------------

  function CreateParams(s: AccountState): CreateAccountParams
  {
    CreateAccountParams(s.emailaccount, s.antivirus, s.antispamlevel, s.autorespond,
                        s.autorespondmessage, s.quotaingib, s.rejectspam)
  }

  /** resourceGlesysEmailAccountCreate: create the account, take its
      address as the id, then Read. */
  method AccountCreate(d: ResourceData<AccountState>, api: AccountApi) returns (diag: Outcome, calls: seq<AccountCall>)
    modifies d
    ensures |calls| >= 1 && calls[0] == CreateAccount(CreateParams(old(d.state)))
    ensures api.create.Err? ==>
      && diag == Fail("Error creating account: " + api.create.error)
      && calls == [calls[0]] && d.id == old(d.id) && d.state == old(d.state)
    ensures api.create.Ok? ==> ReadDone(d, api.create.value, old(d.state), api, diag, calls[1..])
  {
    calls := [CreateAccount(CreateParams(d.state))];
    if api.create.Err? {
      return Fail("Error creating account: " + api.create.error), calls;
    }
    d.SetId(api.create.value);
    var readCalls;
    diag, readCalls := AccountRead(d, api);
    calls := calls + readCalls;
  }

  /** The parameters Update sends: each changed attribute's new value, the
      zero value for every unchanged one. */
  function EditParamsFor(prior: AccountState, now: AccountState): EditAccountParams
  {
    EditAccountParams(
      if now.antispamlevel != prior.antispamlevel then now.antispamlevel else 0,
      if now.antivirus != prior.antivirus then now.antivirus else "",
      if now.autorespond != prior.autorespond then now.autorespond else "",
      if now.autorespondmessage != prior.autorespondmessage then now.autorespondmessage else "",
      if now.quotaingib != prior.quotaingib then now.quotaingib else 0,
      if now.rejectspam != prior.rejectspam then now.rejectspam else "")
  }

  /** The editable attributes as the API holds them. */
  function Editable(s: AccountState): EditAccountParams
  {
    EditAccountParams(s.antispamlevel, s.antivirus, s.autorespond, s.autorespondmessage, s.quotaingib, s.rejectspam)
  }

  /** How the API applies a partial edit: a zero field is left alone. */
  function ApplyEdit(current: EditAccountParams, params: EditAccountParams): EditAccountParams
  {
    EditAccountParams(
      if params.antiSpamLevel != 0 then params.antiSpamLevel else current.antiSpamLevel,
      if params.antiVirus != "" then params.antiVirus else current.antiVirus,
      if params.autoRespond != "" then params.autoRespond else current.autoRespond,
      if params.autoRespondMessage != "" then params.autoRespondMessage else current.autoRespondMessage,
      if params.quotaInGib != 0 then params.quotaInGib else current.quotaInGib,
      if params.rejectSpam != "" then params.rejectSpam else current.rejectSpam)
  }

  /** An edit built from the plan brings an account that matches the prior
      state to the planned attributes exactly when no changed attribute is
      planned at its zero value (antispam level 0, an emptied message). */
  lemma EditReachesPlan(prior: AccountState, now: AccountState)
    ensures (now.antispamlevel != prior.antispamlevel ==> now.antispamlevel != 0)
            && (now.antivirus != prior.antivirus ==> now.antivirus != "")
            && (now.autorespond != prior.autorespond ==> now.autorespond != "")
            && (now.autorespondmessage != prior.autorespondmessage ==> now.autorespondmessage != "")
            && (now.quotaingib != prior.quotaingib ==> now.quotaingib != 0)
            && (now.rejectspam != prior.rejectspam ==> now.rejectspam != "")
      <==> ApplyEdit(Editable(prior), EditParamsFor(prior, now)) == Editable(now)
  {
  }

  /** resourceGlesysEmailAccountUpdate: send the edit (always), then Read. */
  method AccountUpdate(d: ResourceData<AccountState>, api: AccountApi) returns (diag: Outcome, calls: seq<AccountCall>)
    modifies d
    ensures |calls| >= 1 && calls[0] == EditAccount(old(d.id), EditParamsFor(d.prior, old(d.state)))
    ensures api.edit.Failed? ==>
      && diag == Fail("Error updating email account (" + old(d.id) + "): " + api.edit.message)
      && calls == [calls[0]] && d.id == old(d.id) && d.state == old(d.state)
    ensures api.edit.Succeeded? ==> ReadDone(d, old(d.id), old(d.state), api, diag, calls[1..])
  {
    var params := EditAccountParams(0, "", "", "", 0, "");
    if d.state.antispamlevel != d.prior.antispamlevel {
      params := params.(antiSpamLevel := d.state.antispamlevel);
    }
    if d.state.antivirus != d.prior.antivirus {
      params := params.(antiVirus := d.state.antivirus);
    }
    if d.state.autorespond != d.prior.autorespond {
      params := params.(autoRespond := d.state.autorespond);
    }
    if d.state.autorespondmessage != d.prior.autorespondmessage {
      params := params.(autoRespondMessage := d.state.autorespondmessage);
    }
    if d.state.quotaingib != d.prior.quotaingib {
      params := params.(quotaInGib := d.state.quotaingib);
    }
    if d.state.rejectspam != d.prior.rejectspam {
      params := params.(rejectSpam := d.state.rejectspam);
    }
    calls := [EditAccount(d.id, params)];
    if api.edit.Failed? {
      return Fail("Error updating email account (" + d.id + "): " + api.edit.message), calls;
    }
    var readCalls;
    diag, readCalls := AccountRead(d, api);
    calls := calls + readCalls;
  }

  /** resourceGlesysEmailAccountDelete: the id is cleared only once the
      account is deleted. */
  method AccountDelete(d: ResourceData<AccountState>, api: AccountApi) returns (diag: Outcome, calls: seq<AccountCall>)
    modifies d
    ensures calls == [DeleteEmail(old(d.id))]
    ensures api.delete.Failed? ==> diag == Fail("Error deleting email account: " + api.delete.message) && d.id == old(d.id)
    ensures api.delete.Succeeded? ==> diag == Pass && d.id == ""
    ensures d.state == old(d.state)
  {
    calls := [DeleteEmail(d.id)];
    if api.delete.Failed? {
      return Fail("Error deleting email account: " + api.delete.message), calls;
    }
    d.SetId("");
    diag := Pass;
  }
}
