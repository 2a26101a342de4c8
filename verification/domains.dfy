/** The domain manager (domain.py): a listing of all domains fetched once and
    cached, lookup of a domain's uuid by name, and the add and delete
    commands. */
module Domains {
  import opened Wrappers
  import opened Gateway
  import opened Names
  import Search

  datatype Domain = Domain(uuid: string, name: string, email: string)

  /** The single-entry `lru_cache` on `_fetch_all_domains`: empty, or the
      listing of the first fetch that succeeded. A fetch that raised is not
      cached. */
  datatype DomainCache = Unfilled | Filled(domains: seq<Domain>)

  /** One domain-manager operation: its outcome, the requests it sent and
      the cache it leaves behind. */
  datatype Step<T> = Step(result: Result<T, Error>, sent: seq<Request>, cache: DomainCache)

  /** The reply to `GET /v1/domains`: the value of its `domains` key, if any. */
  type ListingReply = Reply<Option<seq<Domain>>>

  /** `_fetch_all_domains`: answer from the cache when it is filled;
      otherwise ask the server once and keep what it lists. `reply` is what
      the server would answer if asked. */
  function FetchAllDomains(cache: DomainCache, reply: ListingReply): (s: Step<seq<Domain>>)
    ensures cache.Filled? ==> s == Step(Ok(cache.domains), [], cache)
    ensures cache.Unfilled? ==> s.sent == [Get(DomainsPath)]
    ensures s.result.Ok? <==> s.cache.Filled?
    ensures s.cache.Filled? ==> s.result.value == s.cache.domains
    ensures cache.Unfilled? && reply.Answer? ==> s.result == Ok(ListedItems(reply.body))
    ensures cache.Unfilled? && reply.HttpError? ==> s.result == Err(ApiFailure(reply.status))
  {
    match cache
    case Filled(domains) => Step(Ok(domains), [], cache)
    case Unfilled =>
      match reply
      case Answer(body) =>
        var domains := ListedItems(body);
        Step(Ok(domains), [Get(DomainsPath)], Filled(domains))
      case HttpError(status) => Step(Err(ApiFailure(status)), [Get(DomainsPath)], Unfilled)
  }

  /** Successive fetches through one manager, the i-th given the reply the
      server would send to the i-th request. */
  function FetchRun(cache: DomainCache, replies: seq<ListingReply>): (run: seq<Step<seq<Domain>>>)
    ensures |run| == |replies|
    decreases |replies|
  {
    if replies == [] then []
    else
      var first := FetchAllDomains(cache, replies[0]);
      [first] + FetchRun(first.cache, replies[1..])
  }

  /** Once filled, the cache answers every later fetch itself and never
      changes. */
  lemma {:induction false} FilledCacheIsFinal(cache: DomainCache, replies: seq<ListingReply>)
    requires cache.Filled?
    ensures forall i :: 0 <= i < |replies| ==> FetchRun(cache, replies)[i] == Step(Ok(cache.domains), [], cache)
    decreases |replies|
  {
    if replies != [] {
      var run := FetchRun(cache, replies);
      var rest := FetchRun(cache, replies[1..]);
      assert run == [FetchAllDomains(cache, replies[0])] + rest;
      FilledCacheIsFinal(cache, replies[1..]);
      forall i | 0 <= i < |replies|
        ensures run[i] == Step(Ok(cache.domains), [], cache)
      {
        if i > 0 {
          assert run[i] == rest[i - 1];
        }
      }
    }
  }

  /** After a fetch in `run` succeeds, every later one sends nothing and
      returns the same listing. */
  predicate SettledAfterSuccess(run: seq<Step<seq<Domain>>>) {
    forall i, j :: 0 <= i < j < |run| && run[i].result.Ok? ==> run[j].sent == [] && run[j].result == run[i].result
  }

  /** The listing is fetched at most once per manager: after a fetch
      succeeds, every later fetch sends nothing and returns the same listing. */
  lemma {:induction false} ListingFetchedOnce(cache: DomainCache, replies: seq<ListingReply>)
    ensures SettledAfterSuccess(FetchRun(cache, replies))
    decreases |replies|
  {
    if replies != [] {
      var run := FetchRun(cache, replies);
      var first := FetchAllDomains(cache, replies[0]);
      var rest := FetchRun(first.cache, replies[1..]);
      assert run == [first] + rest;
      ListingFetchedOnce(first.cache, replies[1..]);
      if first.result.Ok? {
        FilledCacheIsFinal(first.cache, replies[1..]);
      }
      forall i, j | 0 <= i < j < |run| && run[i].result.Ok?
        ensures run[j].sent == [] && run[j].result == run[i].result
      {
        assert run[j] == rest[j - 1];
        if i == 0 {
          assert rest[j - 1] == Step(Ok(first.cache.domains), [], first.cache);
        } else {
          assert run[i] == rest[i - 1];
          assert 0 <= i - 1 < j - 1 < |rest| && rest[i - 1].result.Ok?;
        }
      }
    }
  }

  /** Position `i` holds the first listed domain called `name`. */
  predicate IsFirstNamed(listing: seq<Domain>, name: string, i: int) {
    && 0 <= i < |listing|
    && listing[i].name == name
    && forall j :: 0 <= j < i ==> listing[j].name != name
  }

  /** The search in `get_domain_id_from_name`: the uuid of the first domain
      whose name equals the normalised input, or a failure naming the
      normalised input. */
  function FindDomainId(listing: seq<Domain>, domainName: string): (r: Result<string, Error>)
    ensures r.Ok? ==> exists i :: IsFirstNamed(listing, NormalizeDomain(domainName), i) && listing[i].uuid == r.value
    ensures r.Err? <==> forall i :: 0 <= i < |listing| ==> listing[i].name != NormalizeDomain(domainName)
    ensures r.Err? ==> r.error == DomainNotFound(NormalizeDomain(domainName))
  {
    var wanted := NormalizeDomain(domainName);
    match Search.FirstIndex(listing, (d: Domain) => d.name == wanted)
    case Some(i) => Ok(listing[i].uuid)
    case None => Err(DomainNotFound(wanted))
  }

  /** `get_domain_id_from_name`: fetch (or reuse) the listing, then search it. */
  function GetDomainIdFromName(cache: DomainCache, reply: ListingReply, domainName: string): (s: Step<string>)
    ensures s.sent == FetchAllDomains(cache, reply).sent
    ensures s.cache == FetchAllDomains(cache, reply).cache
    ensures s.result.Ok? ==> s.cache.Filled?
    ensures s.result.Ok? ==>
      exists i :: IsFirstNamed(s.cache.domains, NormalizeDomain(domainName), i) && s.cache.domains[i].uuid == s.result.value
    ensures s.cache.Filled? ==>
      (s.result.Err? <==> forall i :: 0 <= i < |s.cache.domains| ==> s.cache.domains[i].name != NormalizeDomain(domainName))
    ensures s.cache.Filled? && s.result.Err? ==> s.result.error == DomainNotFound(NormalizeDomain(domainName))
    ensures cache.Unfilled? && reply.HttpError? ==> s.result == Err(ApiFailure(reply.status))
  {
    var fetched := FetchAllDomains(cache, reply);
    match fetched.result
    case Err(e) => Step(Err(e), fetched.sent, fetched.cache)
    case Ok(listing) => Step(FindDomainId(listing, domainName), fetched.sent, fetched.cache)
  }

  /** Looking a name up is looking its normalised form up: `example.com`
      and `example.com.` find the same domain, or fail alike. */
  lemma LookupIgnoresTrailingDot(cache: DomainCache, reply: ListingReply, domainName: string)
    ensures GetDomainIdFromName(cache, reply, domainName) == GetDomainIdFromName(cache, reply, NormalizeDomain(domainName))
  {
    NormalizeDomainIdempotent(domainName);
  }

  /** `add_domain`'s request body. */
  function AddDomainPayload(name: string, email: string): (p: Payload)
    ensures p.Keys == {"name", "email"}
    ensures p["name"] == JStr(NormalizeDomain(name)) && HasTrailingDot(p["name"].str)
    ensures p["email"] == JStr(email)
  {
    map["name" := JStr(NormalizeDomain(name)), "email" := JStr(email)]
  }

  /** `add_domain`: one POST of the normalised name and the email; the
      cached listing is left as it was. */
  function AddDomain(cache: DomainCache, name: string, email: string, reply: Reply<Domain>): (s: Step<Domain>)
    ensures s.sent == [Post(DomainsPath, AddDomainPayload(name, email))]
    ensures s.cache == cache
    ensures s.result.Ok? <==> reply.Answer?
    ensures reply.HttpError? ==> s.result == Err(ApiFailure(reply.status))
  {
    var sent := [Post(DomainsPath, AddDomainPayload(name, email))];
    match reply
    case Answer(domain) => Step(Ok(domain), sent, cache)
    case HttpError(status) => Step(Err(ApiFailure(status)), sent, cache)
  }

  /** `delete_domain`: resolve the name, then delete that uuid; nothing is
      deleted when resolution fails. */
  function DeleteDomain(cache: DomainCache, listReply: ListingReply, deleteReply: Reply<DeleteBody>,
                        domainName: string): (s: Step<()>)
    ensures var resolved := GetDomainIdFromName(cache, listReply, domainName);
      && s.cache == resolved.cache
      && (resolved.result.Err? ==> s.result == Err(resolved.result.error) && s.sent == resolved.sent)
      && (resolved.result.Ok? ==> s.sent == resolved.sent + [Delete(DomainPath(resolved.result.value))])
    ensures Mutates(s.sent) <==> GetDomainIdFromName(cache, listReply, domainName).result.Ok?
    ensures s.result.Ok? <==> GetDomainIdFromName(cache, listReply, domainName).result.Ok? && deleteReply.Answer?
    ensures GetDomainIdFromName(cache, listReply, domainName).result.Ok? && deleteReply.HttpError? ==>
      s.result == Err(ApiFailure(deleteReply.status))
  {
    var resolved := GetDomainIdFromName(cache, listReply, domainName);
    assert !Mutates(resolved.sent);
    match resolved.result
    case Err(e) => Step(Err(e), resolved.sent, resolved.cache)
    case Ok(domainId) =>
      var sent := resolved.sent + [Delete(DomainPath(domainId))];
      assert sent[|sent| - 1].IsMutation();
      match deleteReply
      case Answer(_) => Step(Ok(()), sent, resolved.cache)
      case HttpError(status) => Step(Err(ApiFailure(status)), sent, resolved.cache)
  }

  /** `request` deletes a listed domain called `name`. */
  predicate DeletesDomainNamed(listing: seq<Domain>, name: string, request: Request) {
    exists i :: 0 <= i < |listing| && listing[i].name == name && request == Delete(DomainPath(listing[i].uuid))
  }

  /** Every DELETE `delete_domain` sends targets the uuid of a cached domain
      whose name is the normalised input. */
  lemma DeleteTargetsNamedDomain(cache: DomainCache, listReply: ListingReply, deleteReply: Reply<DeleteBody>,
                                 domainName: string)
    ensures var s := DeleteDomain(cache, listReply, deleteReply, domainName);
      forall k :: 0 <= k < |s.sent| && s.sent[k].Delete? ==>
        s.cache.Filled? && DeletesDomainNamed(s.cache.domains, NormalizeDomain(domainName), s.sent[k])
  {
    var s := DeleteDomain(cache, listReply, deleteReply, domainName);
    var resolved := GetDomainIdFromName(cache, listReply, domainName);
    assert resolved.sent == [] || resolved.sent == [Get(DomainsPath)];
    forall k | 0 <= k < |s.sent| && s.sent[k].Delete?
      ensures s.cache.Filled? && DeletesDomainNamed(s.cache.domains, NormalizeDomain(domainName), s.sent[k])
    {
      assert s.sent[k].IsMutation();
      assert Mutates(s.sent);
      assert resolved.result.Ok?;
      assert s.sent == resolved.sent + [Delete(DomainPath(resolved.result.value))];
      assert k == |resolved.sent|;
      var i :| IsFirstNamed(s.cache.domains, NormalizeDomain(domainName), i) && s.cache.domains[i].uuid == resolved.result.value;
      assert s.sent[k] == Delete(DomainPath(s.cache.domains[i].uuid));
    }
  }

  /** The worked example: a listing holding `example.com.` resolves both
      spellings of the name to its uuid and fails for an unknown name. */
  lemma ResolutionExample(uuid: string, email: string)
    ensures var listing := [Domain(uuid, "example.com.", email)];
      && FindDomainId(listing, "example.com") == Ok(uuid)
      && FindDomainId(listing, "example.com.") == Ok(uuid)
      && FindDomainId(listing, "nosuch.com") == Err(DomainNotFound("nosuch.com."))
  {
    assert NormalizeDomain("example.com") == "example.com.";
    assert NormalizeDomain("nosuch.com") == "nosuch.com.";
    assert "nosuch.com."[0] != "example.com."[0];
  }

  /** A domain manager holding its lazily filled listing cache. */
  class DomainManager {
    var cache: DomainCache

    constructor ()
      ensures cache == Unfilled
    {
      cache := Unfilled;
    }

    method FetchAll(reply: ListingReply) returns (listing: Result<seq<Domain>, Error>, sent: seq<Request>)
      modifies this
      ensures var s := FetchAllDomains(old(cache), reply); listing == s.result && sent == s.sent && cache == s.cache
    {
      var s := FetchAllDomains(cache, reply);
      cache := s.cache;
      listing := s.result;
      sent := s.sent;
    }
  }
}
