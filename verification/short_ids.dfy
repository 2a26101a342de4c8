/** Short ids (id_converter.py): the first eight hex characters of a uuid's
    xxh64 digest, and the reverse lookup over a listing. The hash itself is a
    foreign library, so it is a parameter; only the shape of its digest is
    assumed where a property needs it. */
module ShortIds {
  import opened Wrappers
  import opened Gateway
  import Search

  /** A hex-digest function such as `xxhash.xxh64(u).hexdigest()`. */
  type Hasher = string -> string

  const DigestLength: nat := 16
  const ShortIdLength: nat := 8

  predicate IsLowerHexDigit(c: char) {
    '0' <= c <= '9' || 'a' <= c <= 'f'
  }

  predicate IsLowerHex(s: string) {
    forall i :: 0 <= i < |s| ==> IsLowerHexDigit(s[i])
  }

  /** The shape of an xxh64 hex digest: 16 lowercase hex characters. */
  predicate IsXxh64Digest(s: string) {
    |s| == DigestLength && IsLowerHex(s)
  }

  /** The shape of every short id a well-formed digest produces. */
  predicate IsShortIdShape(s: string) {
    |s| == ShortIdLength && IsLowerHex(s)
  }

  /** `get_short_id`: the digest cut to eight characters (Python slicing, so
      a shorter digest would be kept whole). */
  function ShortId(hash: Hasher, uuid: string): (r: string)
    ensures r <= hash(uuid)
    ensures |r| == if |hash(uuid)| < ShortIdLength then |hash(uuid)| else ShortIdLength
    ensures IsXxh64Digest(hash(uuid)) ==> IsShortIdShape(r)
  {
    var digest := hash(uuid);
    if |digest| <= ShortIdLength then digest else digest[..ShortIdLength]
  }

  /** Position `i` holds the first uuid in the listing whose short id is `query`. */
  predicate IsFirstMatch(hash: Hasher, uuids: seq<string>, query: string, i: int) {
    && 0 <= i < |uuids|
    && ShortId(hash, uuids[i]) == query
    && forall j :: 0 <= j < i ==> ShortId(hash, uuids[j]) != query
  }

  /** `find_full_uuid`: the first uuid in listing order whose short id is
      `query`; fails with the query when none is. */
  function FindFullUuid(hash: Hasher, uuids: seq<string>, query: string): (r: Result<string, Error>)
    ensures r.Ok? ==> exists i :: IsFirstMatch(hash, uuids, query, i) && uuids[i] == r.value
    ensures r.Err? <==> forall i :: 0 <= i < |uuids| ==> ShortId(hash, uuids[i]) != query
    ensures r.Err? ==> r.error == IdNotFound(query)
  {
    match Search.FirstIndex(uuids, u => ShortId(hash, u) == query)
    case Some(i) => Ok(uuids[i])
    case None => Err(IdNotFound(query))
  }

  /** The loop of `find_full_uuid` as written, agreeing with the search
      above on every input. */
  method FindFullUuidScan(hash: Hasher, uuids: seq<string>, query: string) returns (r: Result<string, Error>)
    ensures r == FindFullUuid(hash, uuids, query)
  {
    var i := 0;
    while i < |uuids|
      invariant 0 <= i <= |uuids|
      invariant forall j :: 0 <= j < i ==> ShortId(hash, uuids[j]) != query
    {
      if ShortId(hash, uuids[i]) == query {
        return Ok(uuids[i]);
      }
      i := i + 1;
    }
    return Err(IdNotFound(query));
  }

  /** An empty listing never resolves. */
  lemma EmptyListingNeverResolves(hash: Hasher, query: string)
    ensures FindFullUuid(hash, [], query) == Err(IdNotFound(query))
  {
  }

  /** Querying the short id of a listed uuid always succeeds, with the first
      listed uuid sharing that short id: on a collision the first listed
      wins, and without an earlier collision the uuid itself is found. */
  lemma ListedUuidResolves(hash: Hasher, uuids: seq<string>, k: nat)
    requires k < |uuids|
    ensures exists m :: (0 <= m <= k && IsFirstMatch(hash, uuids, ShortId(hash, uuids[k]), m)
                         && FindFullUuid(hash, uuids, ShortId(hash, uuids[k])) == Ok(uuids[m]))
    ensures (forall j :: 0 <= j < k ==> ShortId(hash, uuids[j]) != ShortId(hash, uuids[k]))
      ==> FindFullUuid(hash, uuids, ShortId(hash, uuids[k])) == Ok(uuids[k])
  {
    var query := ShortId(hash, uuids[k]);
    var r := FindFullUuid(hash, uuids, query);
    assert r.Ok?;
    var m :| IsFirstMatch(hash, uuids, query, m) && uuids[m] == r.value;
    assert m <= k;
  }

  /** Matching is exact string equality: when every digest is well formed, a
      query that is not eight lowercase hex characters (an upper-case one,
      say) never matches. */
  lemma MalformedQueryNeverMatches(hash: Hasher, uuids: seq<string>, query: string)
    requires forall i :: 0 <= i < |uuids| ==> IsXxh64Digest(hash(uuids[i]))
    requires !IsShortIdShape(query)
    ensures FindFullUuid(hash, uuids, query) == Err(IdNotFound(query))
  {
    forall i | 0 <= i < |uuids|
      ensures ShortId(hash, uuids[i]) != query
    {
      assert IsShortIdShape(ShortId(hash, uuids[i]));
    }
  }
}
