/** The interface of the REST client (client.py) as the core sees it: the
    requests it sends, the replies it gets back, the JSON values it puts in
    request bodies, and the failures an operation can end in. The network
    itself is not modelled: every reply is an input. */
module Gateway {
  import opened Wrappers

  /** The JSON values that occur in request bodies. */
  datatype Json = JStr(str: string) | JInt(num: int) | JNull

  type Payload = map<string, Json>

  datatype Request =
    | Get(path: string)
    | Post(path: string, body: Payload)
    | Put(path: string, body: Payload)
    | Delete(path: string)
  {
    predicate IsMutation() {
      Post? || Put? || Delete?
    }
  }

  /** What the server answers: a decoded body, or a status that
      `raise_for_status` turns into an exception. */
  datatype Reply<T> = Answer(body: T) | HttpError(status: int)

  /** The body of a successful DELETE: the client returns `None` on 204 and
      the decoded JSON otherwise; both are success. */
  datatype DeleteBody = NoContent | Content

  /** Why an operation stopped: no item with that short id, no domain with
      that (normalised) name, or a non-2xx reply. */
  datatype Error =
    | IdNotFound(shortId: string)
    | DomainNotFound(name: string)
    | ApiFailure(status: int)

  /** What one command did: the requests it sent, in order, and how it ended. */
  datatype Exchange<T> = Exchange(result: Result<T, Error>, sent: seq<Request>)

  const DomainsPath: string := "/v1/domains"

  function DomainPath(domainId: string): string {
    DomainsPath + "/" + domainId
  }

  function RecordsPath(domainId: string): string {
    DomainPath(domainId) + "/records"
  }

  function RecordPath(domainId: string, recordId: string): string {
    RecordsPath(domainId) + "/" + recordId
  }

  /** `response.get(key, [])`: the listed items, or none when the key is
      absent from the response. */
  function ListedItems<T>(field: Option<seq<T>>): (items: seq<T>)
    ensures field.None? ==> items == []
    ensures field.Some? ==> items == field.value
  {
    field.GetOr([])
  }

  /** Did any of these requests change server state? */
  predicate Mutates(sent: seq<Request>) {
    exists i :: 0 <= i < |sent| && sent[i].IsMutation()
  }

  /** A record path names its domain and record: distinct record ids give
      distinct paths under one domain. */
  lemma RecordPathInjective(domainId: string, a: string, b: string)
    ensures RecordPath(domainId, a) == RecordPath(domainId, b) ==> a == b
  {
    var prefix := RecordsPath(domainId) + "/";
    if RecordPath(domainId, a) == RecordPath(domainId, b) {
      assert RecordPath(domainId, a)[|prefix|..] == a;
      assert RecordPath(domainId, b)[|prefix|..] == b;
    }
  }
}
