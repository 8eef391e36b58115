/** resource_glesys_domain_record.go: one DNS record of a domain hosted at
    GleSYS. The resource id is the record's numeric id in decimal. */
module DomainRecord {
  import opened Wrappers
  import opened GoStrings
  import opened Lists
  import opened ResourceState

  /** The resource's attributes (`type` is `recordType` here). */
  datatype RecordState = RecordState(
    data: string, domain: string, host: string, recordid: int, recordType: string, ttl: int)

  /** A record as the API lists it. */
  datatype Record = Record(
    recordId: Int64, domainName: string, data: string, host: string, recordType: string, ttl: int)

  datatype AddRecordParams = AddRecordParams(
    data: string, domainName: string, host: string, recordType: string, ttl: int)

  /** A partial update: the API leaves a field at its zero value alone. */
  datatype UpdateRecordParams = UpdateRecordParams(
    recordId: int, data: string, host: string, recordType: string, ttl: int)

  /** The answers the API gives during one handler run. */
  datatype RecordApi = RecordApi(
    add: Result<Record, string>,
    records: Result<seq<Record>, string>,
    update: CallStatus,
    delete: CallStatus)

  datatype RecordCall =
    | AddRecord(addParams: AddRecordParams)
    | ListRecords(domain: string)
    | UpdateRecord(updateParams: UpdateRecordParams)
    | DeleteRecord(recordId: int)

  // ---------------------------------------------------------------------------
  // Import
  // ---------------------------------------------------------------------------

  /** What the importer makes of an id: left alone, split into domain and
      record id, or refused. */
  datatype ImportedId = Unchanged | Imported(domain: string, recordId: string) | InvalidRecordId(message: string)

  /** resourceGleSYSRecordImport's parsing of "domain.tld,123456": an id
      without a comma is kept as it is; otherwise the second comma-separated
      piece must be an integer and becomes the id, the first the domain, and
      any further pieces are ignored. */
  function ParseImportId(id: string): (r: ImportedId)
    ensures r.Unchanged? <==> ',' !in id
    ensures r.Imported? ==> ',' !in r.domain && ',' !in r.recordId && Atoi(r.recordId).Some?
  {
    if ',' !in id then Unchanged
    else
      var s := Split(id, ',');
      if Atoi(s[1]).Some? then Imported(s[0], s[1])
      else InvalidRecordId("invalid recordid: " + AtoiError(s[1]))
  }

  /** The id the provider itself would print, "domain,recordid", imports as
      that domain and record. */
  lemma ImportRoundTrip(domain: string, n: Int64)
    requires ',' !in domain
    ensures ParseImportId(domain + [','] + Itoa(n)) == Imported(domain, Itoa(n))
  {
    ItoaChars(n);
    SplitPair(domain, Itoa(n), ',');
    AtoiOfItoa(n);
  }

  /** An id of two pieces imports as that domain and record id exactly
      when the second piece is an integer, and is refused with Atoi's error
      otherwise. */
  lemma ImportTwoPieces(domain: string, recordId: string)
    requires ',' !in domain && ',' !in recordId
    ensures ParseImportId(domain + [','] + recordId)
      == if Atoi(recordId).Some? then Imported(domain, recordId)
         else InvalidRecordId("invalid recordid: " + AtoiError(recordId))
  {
    SplitPair(domain, recordId, ',');
  }

  /** Pieces after the record id do not matter, whether the id is accepted
      or refused. */
  lemma ImportIgnoresTrailingPieces(domain: string, recordId: string, rest: string)
    requires ',' !in domain && ',' !in recordId
    ensures ParseImportId(domain + [','] + recordId + [','] + rest) == ParseImportId(domain + [','] + recordId)
  {
    SplitPair(domain, recordId, ',');
    var tail := recordId + [','] + rest;
    var id := domain + [','] + tail;
    assert domain + [','] + recordId + [','] + rest == id;
    SplitFirst(domain, tail, ',');
    SplitFirst(recordId, rest, ',');
    assert Split(id, ',')[1] == recordId;
  }

  /** A comma with nothing after it is refused, not read as record 0. */
  lemma ImportRefusesEmptyRecordId(domain: string)
    requires ',' !in domain
    ensures ParseImportId(domain + [',']).InvalidRecordId?
  {
    SplitPair(domain, "", ',');
    assert domain + [','] + "" == domain + [','];
  }

  /** resourceGleSYSRecordImport on the store. */
  method RecordImport(d: ResourceData<RecordState>) returns (diag: Outcome)
    modifies d
    ensures var r := ParseImportId(old(d.id));
      match r
      case Unchanged => diag == Pass && d.id == old(d.id) && d.state == old(d.state)
      case InvalidRecordId(message) => diag == Fail(message) && d.id == old(d.id) && d.state == old(d.state)
      case Imported(domain, recordId) => diag == Pass && d.id == recordId && d.state == old(d.state).(domain := domain)
  {
    if ',' in d.id {
      var s := Split(d.id, ',');
      if Atoi(s[1]).None? {
        return Fail("invalid recordid: " + AtoiError(s[1]));
      }
      d.SetId(s[1]);
      d.state := d.state.(domain := s[0]);
    }
    diag := Pass;
  }

  // ---------------------------------------------------------------------------
  // Read
  // ---------------------------------------------------------------------------

  function HasRecordId(id: int): Record -> bool
  {
    (r: Record) => r.recordId == id
  }

  /** The attributes after Read's loop has copied `found`, if anything. */
  function CopyRecord(s: RecordState, found: Option<Record>): RecordState
  {
    if found.None? then s
    else
      var r := found.value;
      s.(domain := r.domainName, data := r.data, host := r.host, recordid := r.recordId,
         ttl := r.ttl, recordType := r.recordType)
  }

  /** Read copies the last listed record with the resource's id, and
      leaves the attributes alone when the domain has no such record. */
  lemma ReadCopiesRecord(s: RecordState, records: seq<Record>, id: int)
    ensures forall i :: 0 <= i < |records| && records[i].recordId == id
                        && (forall j :: i < j < |records| ==> records[j].recordId != id) ==>
      var t := CopyRecord(s, LastWhere(records, HasRecordId(id)));
      t.data == records[i].data && t.host == records[i].host && t.ttl == records[i].ttl
      && t.recordType == records[i].recordType && t.domain == records[i].domainName && t.recordid == id
    ensures (forall i :: 0 <= i < |records| ==> records[i].recordId != id) ==>
      CopyRecord(s, LastWhere(records, HasRecordId(id))) == s
  {
    forall i | 0 <= i < |records| && records[i].recordId == id
               && (forall j :: i < j < |records| ==> records[j].recordId != id)
      ensures LastWhere(records, HasRecordId(id)) == Some(records[i])
    {
      LastWhereAt(records, HasRecordId(id), i);
    }
  }

  /** What a Read leaves for the record `id` of a domain. */
  predicate ReadDone(d: ResourceData<RecordState>, id: string, s: RecordState, api: RecordApi, recordId: int)
    reads d
  {
    if api.records.Ok? then d.id == id && d.state == CopyRecord(s, LastWhere(api.records.value, HasRecordId(recordId)))
    else d.id == "" && d.state == s
  }

  /** resourceGlesysDNSDomainRecordRead: an id that is not an integer is an
      error before any call; a failed listing clears the id without an
      error; otherwise the matching record is copied. */
  method RecordRead(d: ResourceData<RecordState>, api: RecordApi) returns (diag: Outcome, calls: seq<RecordCall>)
    modifies d
    ensures Atoi(old(d.id)).None? ==>
      && diag == Fail("invalid record id: " + AtoiError(old(d.id)))
      && calls == [] && d.id == old(d.id) && d.state == old(d.state)
    ensures Atoi(old(d.id)).Some? ==>
      && diag == Pass
      && calls == [ListRecords(old(d.state).domain)]
      && ReadDone(d, old(d.id), old(d.state), api, Atoi(old(d.id)).value)
  {
    var domain := d.state.domain;
    var myId := Atoi(d.id);
    if myId.None? {
      return Fail("invalid record id: " + AtoiError(d.id)), [];
    }
    calls := [ListRecords(domain)];
    if api.records.Err? {
      d.SetId("");
      return Pass, calls;
    }
    var records := api.records.value;
    ghost var s0 := d.state;
    var i := 0;
    while i < |records|
      invariant 0 <= i <= |records|
      invariant d.id == old(d.id)
      invariant d.state == CopyRecord(s0, LastWhere(records[..i], HasRecordId(myId.value)))
    {
      var record := records[i];
      assert records[..i + 1] == records[..i] + [record];
      LastWhereSnoc(records[..i], record, HasRecordId(myId.value));
      if record.recordId == myId.value {
        d.state := d.state.(domain := record.domainName);
        d.state := d.state.(data := record.data);
        d.state := d.state.(host := record.host);
        d.state := d.state.(recordid := record.recordId);
        d.state := d.state.(ttl := record.ttl);
        d.state := d.state.(recordType := record.recordType);
      }
      i := i + 1;
    }
    assert records[..i] == records;
    diag := Pass;
  }

  // ---------------------------------------------------------------------------
  // Create, Update, Delete
  // ---------------------------------------------------------------------------

  function AddParams(s: RecordState): AddRecordParams
  {
    AddRecordParams(s.data, s.domain, s.host, s.recordType, s.ttl)
  }

  /** resourceGlesysDNSDomainRecordCreate: add the record, take its id in
      decimal as the resource id, then Read, which finds that same record
      id again. */
  method RecordCreate(d: ResourceData<RecordState>, api: RecordApi) returns (diag: Outcome, calls: seq<RecordCall>)
    modifies d
    ensures var s := old(d.state);
      api.add.Err? ==>
        && diag == Fail("Error adding record \"" + s.data + "\": " + api.add.error)
        && calls == [AddRecord(AddParams(s))]
        && d.id == old(d.id) && d.state == s
    ensures var s := old(d.state);
      api.add.Ok? ==>
        && diag == Pass
        && calls == [AddRecord(AddParams(s)), ListRecords(s.domain)]
        && ReadDone(d, Itoa(api.add.value.recordId), s, api, api.add.value.recordId)
  {
    var params := AddParams(d.state);
    calls := [AddRecord(params)];
    if api.add.Err? {
      return Fail("Error adding record \"" + params.data + "\": " + api.add.error), calls;
    }
    d.SetId(Itoa(api.add.value.recordId));
    AtoiOfItoa(api.add.value.recordId);
    var readCalls;
    diag, readCalls := RecordRead(d, api);
    calls := calls + readCalls;
  }

  /** The parameters Update sends for record `recordId`: each changed
      attribute's new value, the zero value for every unchanged one. */
  function UpdateParamsFor(recordId: int, prior: RecordState, now: RecordState): UpdateRecordParams
  {
    UpdateRecordParams(
      recordId,
      if now.data != prior.data then now.data else "",
      if now.host != prior.host then now.host else "",
      if now.recordType != prior.recordType then now.recordType else "",
      if now.ttl != prior.ttl then now.ttl else 0)
  }

  /** The editable attributes as the API holds them. */
  function Editable(recordId: int, s: RecordState): UpdateRecordParams
  {
    UpdateRecordParams(recordId, s.data, s.host, s.recordType, s.ttl)
  }

  /** How the API applies a partial update: a zero field is left alone. */
  function ApplyUpdate(current: UpdateRecordParams, params: UpdateRecordParams): UpdateRecordParams
  {
    UpdateRecordParams(
      current.recordId,
      if params.data != "" then params.data else current.data,
      if params.host != "" then params.host else current.host,
      if params.recordType != "" then params.recordType else current.recordType,
      if params.ttl != 0 then params.ttl else current.ttl)
  }

  /** An update built from the plan brings a record that matches the prior
      state to the planned attributes, unless a changed attribute is planned
      at its zero value; such a change is lost. */
  lemma UpdateReachesPlan(recordId: int, prior: RecordState, now: RecordState)
    ensures (now.data != prior.data ==> now.data != "")
            && (now.host != prior.host ==> now.host != "")
            && (now.recordType != prior.recordType ==> now.recordType != "")
            && (now.ttl != prior.ttl ==> now.ttl != 0)
      <==> ApplyUpdate(Editable(recordId, prior), UpdateParamsFor(recordId, prior, now)) == Editable(recordId, now)
  {
  }

  /** resourceGlesysDNSDomainRecordUpdate. */
  method RecordUpdate(d: ResourceData<RecordState>, api: RecordApi) returns (diag: Outcome, calls: seq<RecordCall>)
    modifies d
    ensures Atoi(old(d.id)).None? ==>
      && diag == Fail("Id must be converted to integer: " + AtoiError(old(d.id)))
      && calls == [] && d.id == old(d.id) && d.state == old(d.state)
    ensures Atoi(old(d.id)).Some? ==>
      var s, recordId := old(d.state), Atoi(old(d.id)).value;
      var head := [UpdateRecord(UpdateParamsFor(recordId, d.prior, s))];
      if api.update.Failed? then
        && diag == Fail("Error updating record: " + api.update.message)
        && calls == head && d.id == old(d.id) && d.state == s
      else
        && diag == Pass
        && calls == head + [ListRecords(s.domain)]
        && ReadDone(d, old(d.id), s, api, recordId)
  {
    var recordId := Atoi(d.id);
    if recordId.None? {
      return Fail("Id must be converted to integer: " + AtoiError(d.id)), [];
    }
    var params := UpdateRecordParams(recordId.value, "", "", "", 0);
    if d.state.data != d.prior.data {
      params := params.(data := d.state.data);
    }
    if d.state.host != d.prior.host {
      params := params.(host := d.state.host);
    }
    if d.state.ttl != d.prior.ttl {
      params := params.(ttl := d.state.ttl);
    }
    if d.state.recordType != d.prior.recordType {
      params := params.(recordType := d.state.recordType);
    }
    calls := [UpdateRecord(params)];
    if api.update.Failed? {
      return Fail("Error updating record: " + api.update.message), calls;
    }
    var readCalls;
    diag, readCalls := RecordRead(d, api);
    calls := calls + readCalls;
  }

  /** resourceGlesysDNSDomainRecordDelete: the id is cleared only once the
      record is deleted. */
  method RecordDelete(d: ResourceData<RecordState>, api: RecordApi) returns (diag: Outcome, calls: seq<RecordCall>)
    modifies d
    ensures Atoi(old(d.id)).None? ==>
      && diag == Fail("Id must be converted to integer: " + AtoiError(old(d.id)))
      && calls == [] && d.id == old(d.id)
    ensures Atoi(old(d.id)).Some? ==> calls == [DeleteRecord(Atoi(old(d.id)).value)]
    ensures Atoi(old(d.id)).Some? && api.delete.Failed? ==>
      diag == Fail("Error deleting domain record: " + api.delete.message) && d.id == old(d.id)
    ensures Atoi(old(d.id)).Some? && api.delete.Succeeded? ==> diag == Pass && d.id == ""
    ensures d.state == old(d.state)
  {
    var recordId := Atoi(d.id);
    if recordId.None? {
      return Fail("Id must be converted to integer: " + AtoiError(d.id)), [];
    }
    calls := [DeleteRecord(recordId.value)];
    if api.delete.Failed? {
      return Fail("Error deleting domain record: " + api.delete.message), calls;
    }
    d.SetId("");
    diag := Pass;
  }
}
