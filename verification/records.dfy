/** The record manager (record.py): fetching a domain's records, resolving a
    short record id, and the add, update and delete commands. The domain a
    command works on arrives already resolved (its uuid and its name): the
    two domain-manager lookups record.py calls are not part of this model. */
module Records {
  import opened Wrappers
  import opened Gateway
  import opened Names
  import opened ShortIds

  /** A record as the server returns it; `ttl`, `description` and
      `priority` are read with `.get`, so they may be absent. */
  datatype Record = Record(
    uuid: string,
    name: string,
    rtype: string,
    data: string,
    ttl: Option<int>,
    description: Option<string>,
    priority: Option<int>)

  /** The domain a command acts on: its uuid and its name. */
  datatype ZoneRef = ZoneRef(id: string, name: string)

  /** The optional new values of `update_record`. An override counts as
      given whenever it is not `None`, even when it is the empty string.
      (The command line's own guard, main.py:78, tests truthiness instead,
      so there an empty `--new-name`, `--new-type` or `--new-data` alone
      counts as not given.) */
  datatype Overrides = Overrides(
    newName: Option<string>,
    newType: Option<string>,
    newData: Option<string>,
    newTtl: Option<int>)

  /** The reply to `GET .../records`: the value of its `records` key, if any. */
  type RecordsReply = Reply<Option<seq<Record>>>

  function Uuids(records: seq<Record>): (uuids: seq<string>)
    ensures |uuids| == |records|
    ensures forall i :: 0 <= i < |records| ==> uuids[i] == records[i].uuid
  {
    seq(|records|, i requires 0 <= i < |records| => records[i].uuid)
  }

  function OptionalString(v: Option<string>): Json {
    match v
    case Some(s) => JStr(s)
    case None => JNull
  }

  function OptionalInt(v: Option<int>): Json {
    match v
    case Some(n) => JInt(n)
    case None => JNull
  }

  /** `_get_all_records`: one GET; a reply without `records` lists nothing. */
  function GetAllRecords(domainId: string, reply: RecordsReply): (x: Exchange<seq<Record>>)
    ensures x.sent == [Get(RecordsPath(domainId))]
    ensures x.result.Ok? <==> reply.Answer?
    ensures reply.Answer? && reply.body.None? ==> x.result == Ok([])
    ensures reply.Answer? && reply.body.Some? ==> x.result == Ok(reply.body.value)
    ensures reply.HttpError? ==> x.result == Err(ApiFailure(reply.status))
  {
    var sent := [Get(RecordsPath(domainId))];
    match reply
    case Answer(body) => Exchange(Ok(ListedItems(body)), sent)
    case HttpError(status) => Exchange(Err(ApiFailure(status)), sent)
  }

  /** Fetch the domain's records and resolve a short record id against them
      with `find_full_uuid`: the first listed record with that short id. */
  function ResolveRecordId(hash: Hasher, domainId: string, reply: RecordsReply, shortId: string): (x: Exchange<string>)
    ensures x.sent == [Get(RecordsPath(domainId))]
    ensures x.result.Ok? ==> reply.Answer?
    ensures x.result.Ok? ==> var records := ListedItems(reply.body);
      exists i :: IsFirstMatch(hash, Uuids(records), shortId, i) && records[i].uuid == x.result.value
    ensures reply.Answer? ==>
      (x.result.Err? <==> forall i :: 0 <= i < |ListedItems(reply.body)| ==> ShortId(hash, ListedItems(reply.body)[i].uuid) != shortId)
    ensures reply.Answer? && x.result.Err? ==> x.result.error == IdNotFound(shortId)
    ensures reply.HttpError? ==> x.result == Err(ApiFailure(reply.status))
  {
    var listed := GetAllRecords(domainId, reply);
    match listed.result
    case Err(e) => Exchange(Err(e), listed.sent)
    case Ok(records) =>
      var uuids := Uuids(records);
      var found := FindFullUuid(hash, uuids, shortId);
      assert found.Err? <==> forall i :: 0 <= i < |records| ==> ShortId(hash, records[i].uuid) != shortId by {
        assert forall i :: 0 <= i < |records| ==> uuids[i] == records[i].uuid;
      }
      Exchange(found, listed.sent)
  }

  /** An empty record listing (or one without `records`) never resolves, and
      fails with the not-found error rather than anything else. */
  lemma EmptyRecordListingFails(hash: Hasher, domainId: string, shortId: string, body: Option<seq<Record>>)
    requires ListedItems(body) == []
    ensures ResolveRecordId(hash, domainId, Answer(body), shortId).result == Err(IdNotFound(shortId))
  {
  }

  /** `add_record`'s request body: the record name qualified under the
      domain, and the given type, data and ttl. */
  function AddRecordPayload(domainName: string, name: string, rtype: string, data: string, ttl: int): (p: Payload)
    ensures p.Keys == {"name", "type", "data", "ttl"}
    ensures p["name"] == JStr(NormalizeRecordName(domainName, name)) && HasTrailingDot(p["name"].str)
    ensures name != "@" ==> EndsWith(p["name"].str, Zone(domainName) + ".")
    ensures p["type"] == JStr(rtype) && p["data"] == JStr(data) && p["ttl"] == JInt(ttl)
  {
    map["name" := JStr(NormalizeRecordName(domainName, name)), "type" := JStr(rtype),
        "data" := JStr(data), "ttl" := JInt(ttl)]
  }

  /** `add_record`: once the domain is resolved, one POST to its records. */
  function AddRecord(zone: Result<ZoneRef, Error>, name: string, rtype: string, data: string, ttl: int,
                     reply: Reply<Record>): (x: Exchange<Record>)
    ensures zone.Err? ==> x == Exchange(Err(zone.error), [])
    ensures zone.Ok? ==> x.sent == [Post(RecordsPath(zone.value.id), AddRecordPayload(zone.value.name, name, rtype, data, ttl))]
    ensures x.result.Ok? <==> zone.Ok? && reply.Answer?
    ensures zone.Ok? && reply.HttpError? ==> x.result == Err(ApiFailure(reply.status))
  {
    match zone
    case Err(e) => Exchange(Err(e), [])
    case Ok(z) =>
      var sent := [Post(RecordsPath(z.id), AddRecordPayload(z.name, name, rtype, data, ttl))];
      match reply
      case Answer(record) => Exchange(Ok(record), sent)
      case HttpError(status) => Exchange(Err(ApiFailure(status)), sent)
  }

  /** The ttl an update sends: the override when given, else the current one. */
  function MergedTtl(current: Record, overrides: Overrides): Option<int> {
    if overrides.newTtl.Some? then overrides.newTtl else current.ttl
  }

  /** `update_record`'s request body, built as the source builds it: every
      field merged from the overrides and the current record, the name
      re-normalised, `description` and `priority` carried over (null
      included), and the `ttl` key dropped when the merged ttl is null. */
  function UpdatePayload(domainName: string, current: Record, overrides: Overrides): (p: Payload)
    ensures p.Keys == {"name", "type", "data", "description", "priority"}
      + (if MergedTtl(current, overrides).Some? then {"ttl"} else {})
    ensures "ttl" in p ==> p["ttl"] != JNull
    ensures p["name"].JStr? && HasTrailingDot(p["name"].str)
  {
    var full := map[
      "name" := JStr(NormalizeRecordName(domainName, overrides.newName.GetOr(current.name))),
      "type" := JStr(overrides.newType.GetOr(current.rtype)),
      "data" := JStr(overrides.newData.GetOr(current.data)),
      "ttl" := OptionalInt(MergedTtl(current, overrides)),
      "description" := OptionalString(current.description),
      "priority" := OptionalInt(current.priority)];
    if full["ttl"] == JNull then full - {"ttl"} else full
  }

  /** Fields without an override keep the current record's value: type,
      data and ttl (present exactly when the record has one); description
      and priority are always carried over, null included. */
  lemma UpdateKeepsUnspecifiedFields(domainName: string, current: Record, overrides: Overrides)
    ensures var p := UpdatePayload(domainName, current, overrides);
      && (overrides.newType.None? ==> p["type"] == JStr(current.rtype))
      && (overrides.newData.None? ==> p["data"] == JStr(current.data))
      && (overrides.newTtl.None? ==> ("ttl" in p <==> current.ttl.Some?))
      && (overrides.newTtl.None? && current.ttl.Some? ==> p["ttl"] == JInt(current.ttl.value))
      && p["description"] == OptionalString(current.description)
      && p["priority"] == OptionalInt(current.priority)
  {
  }

  /** A given override wins, even the empty string or a zero ttl. */
  lemma UpdateAppliesOverrides(domainName: string, current: Record, overrides: Overrides)
    ensures var p := UpdatePayload(domainName, current, overrides);
      && (overrides.newType.Some? ==> p["type"] == JStr(overrides.newType.value))
      && (overrides.newData.Some? ==> p["data"] == JStr(overrides.newData.value))
      && (overrides.newTtl.Some? ==> "ttl" in p && p["ttl"] == JInt(overrides.newTtl.value))
  {
  }

  /** The name is always re-normalised against the domain, whether or not
      a new name was given. */
  lemma UpdateRenormalizesName(domainName: string, current: Record, overrides: Overrides)
    ensures UpdatePayload(domainName, current, overrides)["name"]
         == JStr(NormalizeRecordName(domainName, overrides.newName.GetOr(current.name)))
  {
  }

  /** Because normalisation is not idempotent, an update that does not
      rename a record whose name is already normalised under a non-empty
      zone still changes its name: the zone is appended a second time. */
  lemma {:induction false} UpdateRequalifiesNormalizedName(domainName: string, current: Record, overrides: Overrides, rawName: string)
    requires overrides.newName.None?
    requires Zone(domainName) != ""
    requires current.name == NormalizeRecordName(domainName, rawName)
    ensures UpdatePayload(domainName, current, overrides)["name"] != JStr(current.name)
  {
    RecordNameIdempotentIffEmptyZone(domainName, rawName);
    UpdateRenormalizesName(domainName, current, overrides);
  }

  /** `update_record`: resolve the record, fetch its current state, PUT the
      merged body to it. Nothing is written unless every step before
      succeeded. */
  function UpdateRecord(hash: Hasher, zone: Result<ZoneRef, Error>, recordsReply: RecordsReply,
                        currentReply: Reply<Record>, putReply: Reply<Record>,
                        shortId: string, overrides: Overrides): (x: Exchange<Record>)
    ensures zone.Err? ==> x == Exchange(Err(zone.error), [])
    ensures Mutates(x.sent) <==>
      && zone.Ok?
      && ResolveRecordId(hash, zone.value.id, recordsReply, shortId).result.Ok?
      && currentReply.Answer?
    ensures Mutates(x.sent) ==>
      var rid := ResolveRecordId(hash, zone.value.id, recordsReply, shortId).result.value;
      x.sent == [Get(RecordsPath(zone.value.id)), Get(RecordPath(zone.value.id, rid)),
                 Put(RecordPath(zone.value.id, rid), UpdatePayload(zone.value.name, currentReply.body, overrides))]
    ensures x.result.Ok? <==> Mutates(x.sent) && putReply.Answer?
    ensures zone.Ok? && ResolveRecordId(hash, zone.value.id, recordsReply, shortId).result.Err? ==>
      && x.result == Err(ResolveRecordId(hash, zone.value.id, recordsReply, shortId).result.error)
      && x.sent == [Get(RecordsPath(zone.value.id))]
    ensures zone.Ok? && ResolveRecordId(hash, zone.value.id, recordsReply, shortId).result.Ok? && currentReply.HttpError? ==>
      var rid := ResolveRecordId(hash, zone.value.id, recordsReply, shortId).result.value;
      && x.result == Err(ApiFailure(currentReply.status))
      && x.sent == [Get(RecordsPath(zone.value.id)), Get(RecordPath(zone.value.id, rid))]
    ensures Mutates(x.sent) && putReply.HttpError? ==> x.result == Err(ApiFailure(putReply.status))
  {
    match zone
    case Err(e) => Exchange(Err(e), [])
    case Ok(z) =>
      var resolved := ResolveRecordId(hash, z.id, recordsReply, shortId);
      match resolved.result
      case Err(e) => Exchange(Err(e), resolved.sent)
      case Ok(rid) =>
        var fetchCurrent := resolved.sent + [Get(RecordPath(z.id, rid))];
        assert !Mutates(fetchCurrent);
        match currentReply
        case HttpError(status) => Exchange(Err(ApiFailure(status)), fetchCurrent)
        case Answer(current) =>
          var sent := fetchCurrent + [Put(RecordPath(z.id, rid), UpdatePayload(z.name, current, overrides))];
          assert sent[2].IsMutation();
          match putReply
          case Answer(updated) => Exchange(Ok(updated), sent)
          case HttpError(status) => Exchange(Err(ApiFailure(status)), sent)
  }

  /** `delete_record`: resolve the record, then DELETE it; nothing is
      deleted when the domain or the record cannot be resolved. A 204 reply
      is success. */
  function DeleteRecord(hash: Hasher, zone: Result<ZoneRef, Error>, recordsReply: RecordsReply,
                        deleteReply: Reply<DeleteBody>, shortId: string): (x: Exchange<()>)
    ensures zone.Err? ==> x == Exchange(Err(zone.error), [])
    ensures zone.Ok? ==> var resolved := ResolveRecordId(hash, zone.value.id, recordsReply, shortId);
      && (resolved.result.Err? ==> x == Exchange(Err(resolved.result.error), [Get(RecordsPath(zone.value.id))]))
      && (resolved.result.Ok? ==>
            x.sent == [Get(RecordsPath(zone.value.id)), Delete(RecordPath(zone.value.id, resolved.result.value))])
    ensures Mutates(x.sent) <==> zone.Ok? && ResolveRecordId(hash, zone.value.id, recordsReply, shortId).result.Ok?
    ensures x.result.Ok? <==> Mutates(x.sent) && deleteReply.Answer?
    ensures Mutates(x.sent) && deleteReply.HttpError? ==> x.result == Err(ApiFailure(deleteReply.status))
  {
    match zone
    case Err(e) => Exchange(Err(e), [])
    case Ok(z) =>
      var resolved := ResolveRecordId(hash, z.id, recordsReply, shortId);
      assert !Mutates(resolved.sent);
      match resolved.result
      case Err(e) => Exchange(Err(e), resolved.sent)
      case Ok(rid) =>
        var sent := resolved.sent + [Delete(RecordPath(z.id, rid))];
        assert sent[1].IsMutation();
        match deleteReply
        case Answer(_) => Exchange(Ok(()), sent)
        case HttpError(status) => Exchange(Err(ApiFailure(status)), sent)
  }

  /** The record a delete or an update writes to is a listed record of the
      domain whose short id is the one asked for, and no earlier listed
      record has that short id. */
  lemma MutationTargetsQueriedRecord(hash: Hasher, zone: ZoneRef, recordsReply: RecordsReply, shortId: string)
    requires ResolveRecordId(hash, zone.id, recordsReply, shortId).result.Ok?
    ensures recordsReply.Answer?
    ensures var records := ListedItems(recordsReply.body);
      var rid := ResolveRecordId(hash, zone.id, recordsReply, shortId).result.value;
      && ShortId(hash, rid) == shortId
      && (exists i :: 0 <= i < |records| && records[i].uuid == rid
           && forall j :: 0 <= j < i ==> ShortId(hash, records[j].uuid) != shortId)
      && forall other :: RecordPath(zone.id, other) == RecordPath(zone.id, rid) ==> other == rid
  {
    var records := ListedItems(recordsReply.body);
    var rid := ResolveRecordId(hash, zone.id, recordsReply, shortId).result.value;
    var i :| IsFirstMatch(hash, Uuids(records), shortId, i) && records[i].uuid == rid;
    assert forall j :: 0 <= j < i ==> Uuids(records)[j] == records[j].uuid;
    forall other | RecordPath(zone.id, other) == RecordPath(zone.id, rid)
      ensures other == rid
    {
      RecordPathInjective(zone.id, other, rid);
    }
  }
}
